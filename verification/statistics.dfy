/** The aggregations of src/components/Statistics.jsx: the per-worker activity
    rows and their ordering, the per-username aggregates, the scans-per-day
    buckets with their chart series, and the username search. The backend
    selects are inputs. */
module Statistics {
  import opened Common
  import opened Collections
  import Sorting

  /** A QR code as selected under its worker: `scan_count`, `username`,
      `purpose`, `product_code`. */
  datatype QrStat = QrStat(scanCount: Option<int>, username: Option<string>, purpose: string, productCode: Option<string>)

  /** A worker row with its QR codes: `name`, `visits_count`, `qr_codes`. */
  datatype WorkerStat = WorkerStat(name: string, visitsCount: int, qrCodes: seq<QrStat>)

  /** One entry of `activityData`. */
  datatype ActivityRow = ActivityRow(name: string, totalScans: int, averageScansPerCode: int,
                                     totalCodes: nat, uniqueUsernames: nat, usernamesList: seq<string>)

  /** The chart returned by `prepareWorkerActivityData`: the labels, the three
      data series and the rows they were read from. */
  datatype ActivityChart = ActivityChart(labels: seq<string>, totalScans: seq<int>, averages: seq<int>,
                                         uniqueUsernames: seq<nat>, workerDetails: seq<ActivityRow>)

  // ----- Per-worker activity rows -----

  /** `qr_codes.filter(qr => qr.username).map(qr => qr.username)`. */
  function Usernames(qrs: seq<QrStat>): (r: seq<string>)
    ensures forall u :: u in r <==> exists k | 0 <= k < |qrs| :: qrs[k].username == Some(u) && u != ""
  {
    if qrs == [] then []
    else
      var init, last := qrs[..|qrs| - 1], qrs[|qrs| - 1];
      assert forall k | 0 <= k < |init| :: init[k] == qrs[k];
      Usernames(init) + (if Truthy(last.username) then [last.username.value] else [])
  }

  /** The usernames follow the codes: one more code appends its username
      exactly when that is truthy. */
  lemma UsernamesAppend(qrs: seq<QrStat>, qr: QrStat)
    ensures Usernames(qrs + [qr]) == Usernames(qrs) + (if Truthy(qr.username) then [qr.username.value] else [])
  {
    assert (qrs + [qr])[..|qrs|] == qrs;
  }

  /** `qr_codes.reduce((acc, qr) => acc + (qr.scan_count || 0), 0)`. */
  function SumScans(qrs: seq<QrStat>): (sum: int)
    // null counts add nothing, so with no negative count the sum is not negative
    ensures (forall k | 0 <= k < |qrs| :: OrZero(qrs[k].scanCount) >= 0) ==> sum >= 0
  {
    if qrs == [] then 0
    else
      var init := qrs[..|qrs| - 1];
      assert forall k | 0 <= k < |init| :: init[k] == qrs[k];
      SumScans(init) + OrZero(qrs[|qrs| - 1].scanCount)
  }

  /** `Math.round(sum / n)`: the integer nearest to the mean, halves rounded up. */
  function RoundHalfUp(sum: int, n: nat): (r: int)
    requires n > 0
    ensures 2 * n * r - n <= 2 * sum < 2 * n * r + n
  {
    (2 * sum + n) / (2 * n)
  }

  /** Only one integer lies that close to the mean, so the rounding is determined. */
  lemma RoundHalfUpUnique(sum: int, n: nat, r: int)
    requires n > 0
    requires 2 * n * r - n <= 2 * sum < 2 * n * r + n
    ensures r == RoundHalfUp(sum, n)
  {
    var q := RoundHalfUp(sum, n);
    if r < q {
      assert 2 * n * (q - r) > 0;
      MulAtLeast(2 * n, q - r);
    } else if r > q {
      MulAtLeast(2 * n, r - q);
    }
  }

  lemma MulAtLeast(a: nat, b: int)
    requires b >= 1
    ensures a * b >= a
  {
  }

  /** The activity row of one worker: its name and `visits_count`, the number
      of its codes, the rounded mean of their scan counts (0 with no codes),
      and its distinct usernames in first-occurrence order. */
  function Activity(w: WorkerStat): (row: ActivityRow)
    ensures row.name == w.name && row.totalScans == w.visitsCount
    ensures row.totalCodes == |w.qrCodes|
    ensures |w.qrCodes| == 0 ==> row.averageScansPerCode == 0
    ensures |w.qrCodes| > 0 ==>
              var n := |w.qrCodes|;
              2 * n * row.averageScansPerCode - n <= 2 * SumScans(w.qrCodes) < 2 * n * row.averageScansPerCode + n
    ensures Distinct(row.usernamesList) && row.uniqueUsernames == |row.usernamesList|
    ensures forall u :: u in row.usernamesList <==> exists k | 0 <= k < |w.qrCodes| :: w.qrCodes[k].username == Some(u) && u != ""
  {
    var unique := Dedup(Usernames(w.qrCodes));
    ActivityRow(w.name, w.visitsCount,
                if |w.qrCodes| > 0 then RoundHalfUp(SumScans(w.qrCodes), |w.qrCodes|) else 0,
                |w.qrCodes|, |unique|, unique)
  }

  /** A row lists its usernames in the order of their first occurrence
      among the worker's codes. */
  lemma ActivityUsernamesOrder(w: WorkerStat)
    ensures var names, list := Usernames(w.qrCodes), Activity(w).usernamesList;
            forall i, j | 0 <= i < j < |list| ::
              list[i] in names && list[j] in names && FirstIndex(names, list[i]) < FirstIndex(names, list[j])
  {
    DedupOrder(Usernames(w.qrCodes));
  }

  /** `workers.map(...)`. */
  function ActivityRows(workers: seq<WorkerStat>): (rows: seq<ActivityRow>)
    ensures |rows| == |workers| && forall i | 0 <= i < |workers| :: rows[i] == Activity(workers[i])
  {
    seq(|workers|, i requires 0 <= i < |workers| => Activity(workers[i]))
  }

  /** The sort key of `activityData.sort((a, b) => b.totalScans - a.totalScans)`. */
  function ScansKey(row: ActivityRow): Sorting.Key {
    Sorting.Num(row.totalScans)
  }

  /** The rows in descending order of `totalScans`. */
  function SortedActivity(workers: seq<WorkerStat>): (rows: seq<ActivityRow>)
    ensures multiset(rows) == multiset(ActivityRows(workers)) && |rows| == |workers|
    ensures forall i, j | 0 <= i < j < |rows| :: rows[i].totalScans >= rows[j].totalScans
  {
    var r := Sorting.Sort(ActivityRows(workers), ScansKey, false);
    assert forall i, j | 0 <= i < j < |r| :: Sorting.Precedes(r[i], r[j], ScansKey, false);
    r
  }

  /** `prepareWorkerActivityData`: no chart when the select failed; otherwise
      the sorted rows and, index by index, their names, totals, averages and
      username counts. */
  function PrepareActivityChart(fetched: Option<seq<WorkerStat>>): (chart: Option<ActivityChart>)
    ensures fetched.None? <==> chart.None?
    ensures fetched.Some? ==>
              var c := chart.value;
              c.workerDetails == SortedActivity(fetched.value)
              && |c.labels| == |c.totalScans| == |c.averages| == |c.uniqueUsernames| == |c.workerDetails| == |fetched.value|
              && forall i | 0 <= i < |c.workerDetails| ::
                   c.labels[i] == c.workerDetails[i].name && c.totalScans[i] == c.workerDetails[i].totalScans
                   && c.averages[i] == c.workerDetails[i].averageScansPerCode
                   && c.uniqueUsernames[i] == c.workerDetails[i].uniqueUsernames
  {
    match fetched
    case None => None
    case Some(workers) =>
      var rows := SortedActivity(workers);
      Some(ActivityChart(seq(|rows|, i requires 0 <= i < |rows| => rows[i].name),
                         seq(|rows|, i requires 0 <= i < |rows| => rows[i].totalScans),
                         seq(|rows|, i requires 0 <= i < |rows| => rows[i].averageScansPerCode),
                         seq(|rows|, i requires 0 <= i < |rows| => rows[i].uniqueUsernames),
                         rows))
  }

  // ----- Per-username aggregates -----

  /** One QR code together with the name of the worker it was read under. */
  datatype Tagged = Tagged(worker: string, qr: QrStat)

  /** The aggregate of one username: its workers, purposes and product codes
      as insertion-ordered sets, and its scan total. */
  datatype UserAgg = UserAgg(username: string, workers: seq<string>, totalScans: int,
                             purposes: seq<string>, productCodes: seq<string>)

  /** The `reduce` accumulator: its keys in insertion order and its entries. */
  datatype Agg = Agg(order: seq<string>, entries: map<string, UserAgg>)

  /** The QR codes of one worker, tagged with the worker's name. */
  function TagAll(name: string, qrs: seq<QrStat>): (r: seq<Tagged>)
    ensures |r| == |qrs| && forall k | 0 <= k < |qrs| :: r[k] == Tagged(name, qrs[k])
  {
    seq(|qrs|, k requires 0 <= k < |qrs| => Tagged(name, qrs[k]))
  }

  /** Every QR code of every worker, in the order the nested loops visit them. */
  function Pairs(workers: seq<WorkerStat>): seq<Tagged> {
    if workers == [] then []
    else Pairs(workers[..|workers| - 1]) + TagAll(workers[|workers| - 1].name, workers[|workers| - 1].qrCodes)
  }

  /** The truthy usernames among the tagged codes. */
  function Names(pairs: seq<Tagged>): set<string> {
    if pairs == [] then {}
    else Names(pairs[..|pairs| - 1]) + (var q := pairs[|pairs| - 1].qr; if Truthy(q.username) then {q.username.value} else {})
  }

  /** The truthy usernames of the tagged codes, in code order. */
  function NameSeq(pairs: seq<Tagged>): (r: seq<string>)
    ensures forall u :: u in r <==> u in Names(pairs)
  {
    if pairs == [] then []
    else NameSeq(pairs[..|pairs| - 1]) + (var q := pairs[|pairs| - 1].qr; if Truthy(q.username) then [q.username.value] else [])
  }

  /** The sum of `scan_count || 0` over the codes with username `u`. */
  function ScansFor(pairs: seq<Tagged>, u: string): int {
    if pairs == [] then 0
    else ScansFor(pairs[..|pairs| - 1], u) + (var q := pairs[|pairs| - 1].qr; if q.username == Some(u) then OrZero(q.scanCount) else 0)
  }

  /** The names of the workers owning a code with username `u`. */
  function OwnersFor(pairs: seq<Tagged>, u: string): set<string> {
    if pairs == [] then {}
    else OwnersFor(pairs[..|pairs| - 1], u) + (var p := pairs[|pairs| - 1]; if p.qr.username == Some(u) then {p.worker} else {})
  }

  /** The purposes of the codes with username `u`. */
  function PurposesFor(pairs: seq<Tagged>, u: string): set<string> {
    if pairs == [] then {}
    else PurposesFor(pairs[..|pairs| - 1], u) + (var q := pairs[|pairs| - 1].qr; if q.username == Some(u) then {q.purpose} else {})
  }

  /** The truthy product codes of the codes with username `u`. */
  function CodesFor(pairs: seq<Tagged>, u: string): set<string> {
    if pairs == [] then {}
    else CodesFor(pairs[..|pairs| - 1], u) + (var q := pairs[|pairs| - 1].qr; if q.username == Some(u) && Truthy(q.productCode) then {q.productCode.value} else {})
  }

  /** One iteration of the `forEach`: a code without a username is skipped;
      the first code of a username creates its entry; later ones add the
      worker and purpose, add the product code when it is truthy, and add the
      scan count. */
  function Step(acc: Agg, t: Tagged): Agg
  {
    var qr := t.qr;
    if !Truthy(qr.username) then acc
    else
      var u := qr.username.value;
      if u !in acc.entries then
        Agg(acc.order + [u],
            acc.entries[u := UserAgg(u, [t.worker], OrZero(qr.scanCount), [qr.purpose],
                                     if Truthy(qr.productCode) then [qr.productCode.value] else [])])
      else
        var e := acc.entries[u];
        Agg(acc.order,
            acc.entries[u := e.(workers := AddToSet(e.workers, t.worker),
                                totalScans := e.totalScans + OrZero(qr.scanCount),
                                purposes := AddToSet(e.purposes, qr.purpose),
                                productCodes := if Truthy(qr.productCode) then AddToSet(e.productCodes, qr.productCode.value)
                                                else e.productCodes)])
  }

  /** What one step does to the accumulator: a code without a truthy
      username changes nothing; otherwise its username gets an entry, listed
      last when it is new, which adds the code's scans to the earlier total
      and records its worker, its purpose and its truthy product code; the
      entries of the other usernames are left as they were. */
  lemma StepEffect(acc: Agg, t: Tagged)
    ensures !Truthy(t.qr.username) ==> Step(acc, t) == acc
    ensures Truthy(t.qr.username) ==>
              var r, u := Step(acc, t), t.qr.username.value;
              u in r.entries
              && r.order == (if u in acc.entries then acc.order else acc.order + [u])
              && r.entries[u].totalScans == (if u in acc.entries then acc.entries[u].totalScans else 0) + OrZero(t.qr.scanCount)
              && t.worker in r.entries[u].workers && t.qr.purpose in r.entries[u].purposes
              && (Truthy(t.qr.productCode) ==> t.qr.productCode.value in r.entries[u].productCodes)
    ensures forall v | !(Truthy(t.qr.username) && v == t.qr.username.value) ::
              (v in Step(acc, t).entries <==> v in acc.entries)
              && (v in acc.entries ==> Step(acc, t).entries[v] == acc.entries[v])
  {
  }

  /** The accumulator after the given codes. Its keys are the truthy usernames
      seen, listed once each in insertion order, and each entry is filed under
      its own username. */
  function Aggregate(pairs: seq<Tagged>): (r: Agg)
    ensures Distinct(r.order)
    ensures forall u :: u in r.order <==> u in r.entries
    ensures forall u :: u in r.entries <==> u in Names(pairs)
    ensures forall u | u in r.entries :: r.entries[u].username == u
  {
    if pairs == [] then Agg([], map[])
    else Step(Aggregate(pairs[..|pairs| - 1]), pairs[|pairs| - 1])
  }

  /** The keys of the accumulator are the usernames in the order in which
      they are first seen. */
  lemma AggregateOrder(pairs: seq<Tagged>)
    ensures Aggregate(pairs).order == Dedup(NameSeq(pairs))
    ensures var order, names := Aggregate(pairs).order, NameSeq(pairs);
            forall i, j | 0 <= i < j < |order| ::
              order[i] in names && order[j] in names && FirstIndex(names, order[i]) < FirstIndex(names, order[j])
  {
    AggregateKeys(pairs);
    DedupOrder(NameSeq(pairs));
  }

  lemma {:induction false} AggregateKeys(pairs: seq<Tagged>)
    ensures Aggregate(pairs).order == Dedup(NameSeq(pairs))
  {
    if pairs != [] {
      var init, t := pairs[..|pairs| - 1], pairs[|pairs| - 1];
      AggregateKeys(init);
      var prev := Aggregate(init);
      assert Aggregate(pairs) == Step(prev, t);
      StepEffect(prev, t);
      if Truthy(t.qr.username) {
        var u := t.qr.username.value;
        var names := NameSeq(init) + [u];
        assert NameSeq(pairs) == names;
        assert names[..|names| - 1] == NameSeq(init);
        assert Dedup(names) == AddToSet(prev.order, u);
        assert u in prev.entries <==> u in prev.order;
      } else {
        assert NameSeq(pairs) == NameSeq(init);
      }
    }
  }

  /** `Object.values(allUsernames)` with the sets turned into arrays. */
  function UsernamesArray(acc: Agg): (r: seq<UserAgg>)
    requires forall u :: u in acc.order ==> u in acc.entries
    ensures |r| == |acc.order| && forall k | 0 <= k < |r| :: r[k] == acc.entries[acc.order[k]]
  {
    seq(|acc.order|, k requires 0 <= k < |acc.order| => acc.entries[acc.order[k]])
  }

  /** A username not seen yet has nothing recorded against it. */
  lemma {:induction false} Unseen(pairs: seq<Tagged>, u: string)
    requires u !in Names(pairs) && u != ""
    ensures ScansFor(pairs, u) == 0
    ensures OwnersFor(pairs, u) == {} && PurposesFor(pairs, u) == {} && CodesFor(pairs, u) == {}
  {
    if pairs != [] {
      Unseen(pairs[..|pairs| - 1], u);
    }
  }

  /** Only truthy usernames are recorded. */
  lemma {:induction false} NamesTruthy(pairs: seq<Tagged>)
    ensures "" !in Names(pairs)
  {
    if pairs != [] {
      NamesTruthy(pairs[..|pairs| - 1]);
    }
  }

  /** The entry of `u` after appending `t` is the entry before, updated by
      `t` when `t` carries username `u`. */
  lemma EntryStep(pairs: seq<Tagged>, u: string)
    requires pairs != [] && u in Aggregate(pairs).entries
    ensures var prev := Aggregate(pairs[..|pairs| - 1]);
            Aggregate(pairs) == Step(prev, pairs[|pairs| - 1])
            && (pairs[|pairs| - 1].qr.username != Some(u) ==> u in prev.entries && Aggregate(pairs).entries[u] == prev.entries[u])
  {
    StepEffect(Aggregate(pairs[..|pairs| - 1]), pairs[|pairs| - 1]);
  }

  /** A username's scan total is the sum of `scan_count || 0` over its codes. */
  lemma {:induction false} EntryScans(pairs: seq<Tagged>, u: string)
    requires u in Aggregate(pairs).entries
    ensures Aggregate(pairs).entries[u].totalScans == ScansFor(pairs, u)
  {
    var init := pairs[..|pairs| - 1];
    EntryStep(pairs, u);
    NamesTruthy(pairs);
    if u in Aggregate(init).entries { EntryScans(init, u); } else { Unseen(init, u); }
  }

  /** A username's workers are the owners of its codes, each listed once. */
  lemma {:induction false} EntryWorkers(pairs: seq<Tagged>, u: string)
    requires u in Aggregate(pairs).entries
    ensures var e := Aggregate(pairs).entries[u];
            Distinct(e.workers) && forall x :: x in e.workers <==> x in OwnersFor(pairs, u)
  {
    var init := pairs[..|pairs| - 1];
    EntryStep(pairs, u);
    NamesTruthy(pairs);
    if u in Aggregate(init).entries { EntryWorkers(init, u); } else { Unseen(init, u); }
  }

  /** A username's purposes are those of its codes, each listed once. */
  lemma {:induction false} EntryPurposes(pairs: seq<Tagged>, u: string)
    requires u in Aggregate(pairs).entries
    ensures var e := Aggregate(pairs).entries[u];
            Distinct(e.purposes) && forall x :: x in e.purposes <==> x in PurposesFor(pairs, u)
  {
    var init := pairs[..|pairs| - 1];
    EntryStep(pairs, u);
    NamesTruthy(pairs);
    if u in Aggregate(init).entries { EntryPurposes(init, u); } else { Unseen(init, u); }
  }

  /** A username's product codes are the truthy product codes of its codes,
      each listed once. */
  lemma {:induction false} EntryProductCodes(pairs: seq<Tagged>, u: string)
    requires u in Aggregate(pairs).entries
    ensures var e := Aggregate(pairs).entries[u];
            Distinct(e.productCodes) && forall x :: x in e.productCodes <==> x in CodesFor(pairs, u)
  {
    var init := pairs[..|pairs| - 1];
    EntryStep(pairs, u);
    NamesTruthy(pairs);
    if u in Aggregate(init).entries { EntryProductCodes(init, u); } else { Unseen(init, u); }
  }

  /** No product code recorded for a username is falsy. */
  lemma NoFalsyProductCodes(pairs: seq<Tagged>, u: string)
    requires u in Aggregate(pairs).entries
    ensures "" !in Aggregate(pairs).entries[u].productCodes
  {
    EntryProductCodes(pairs, u);
    CodesTruthy(pairs, u);
  }

  lemma {:induction false} CodesTruthy(pairs: seq<Tagged>, u: string)
    ensures "" !in CodesFor(pairs, u)
  {
    if pairs != [] {
      CodesTruthy(pairs[..|pairs| - 1], u);
      var q := pairs[|pairs| - 1].qr;
      assert q.username == Some(u) && Truthy(q.productCode) ==> q.productCode.value != "";
    }
  }

  /** `usernamesArray`: one aggregate per truthy username of any worker's
      codes, none twice; each holds that username's scan total, owners,
      purposes and truthy product codes, with no falsy product code. */
  lemma UsernamesArrayContents(workers: seq<WorkerStat>, k: nat)
    requires k < |UsernamesArray(Aggregate(Pairs(workers)))|
    ensures var all := UsernamesArray(Aggregate(Pairs(workers)));
            var e, pairs := all[k], Pairs(workers);
            e.username in Names(pairs)
            && (forall m | 0 <= m < |all| && m != k :: all[m].username != e.username)
            && e.totalScans == ScansFor(pairs, e.username)
            && (forall x :: x in e.workers <==> x in OwnersFor(pairs, e.username))
            && (forall x :: x in e.purposes <==> x in PurposesFor(pairs, e.username))
            && (forall x :: x in e.productCodes <==> x in CodesFor(pairs, e.username))
            && "" !in e.productCodes
  {
    var pairs := Pairs(workers);
    var acc := Aggregate(pairs);
    var all, u := UsernamesArray(acc), acc.order[k];
    assert all[k] == acc.entries[u];
    assert forall m | 0 <= m < |all| :: all[m].username == acc.order[m];
    EntryScans(pairs, u);
    EntryWorkers(pairs, u);
    EntryPurposes(pairs, u);
    EntryProductCodes(pairs, u);
    NoFalsyProductCodes(pairs, u);
  }

  /** Every truthy username of any worker's codes has an aggregate. */
  lemma EveryUsernameAggregated(workers: seq<WorkerStat>, u: string)
    requires u in Names(Pairs(workers))
    ensures exists k | 0 <= k < |UsernamesArray(Aggregate(Pairs(workers)))| ::
              UsernamesArray(Aggregate(Pairs(workers)))[k].username == u
  {
    var acc := Aggregate(Pairs(workers));
    var k :| 0 <= k < |acc.order| && acc.order[k] == u;
    assert UsernamesArray(acc)[k].username == u;
  }

  lemma AppendTagged(before: seq<Tagged>, name: string, qrs: seq<QrStat>, j: nat)
    requires j < |qrs|
    ensures before + TagAll(name, qrs[..j + 1]) == (before + TagAll(name, qrs[..j])) + [Tagged(name, qrs[j])]
  {
  }

  lemma AggregateAppend(pairs: seq<Tagged>, t: Tagged)
    ensures Aggregate(pairs + [t]) == Step(Aggregate(pairs), t)
  {
    assert (pairs + [t])[..|pairs|] == pairs;
  }

  /** The body of the `forEach` callback: updates the accumulator in place
      for one QR code of the worker named `workerName`. */
  method AddCode(order: seq<string>, acc: map<string, UserAgg>, workerName: string, qr: QrStat)
    returns (order': seq<string>, acc': map<string, UserAgg>)
    ensures Agg(order', acc') == Step(Agg(order, acc), Tagged(workerName, qr))
  {
    order', acc' := order, acc;
    if Truthy(qr.username) {
      var u := qr.username.value;
      if u !in acc' {
        order' := order' + [u];
        acc' := acc'[u := UserAgg(u, [workerName], OrZero(qr.scanCount), [qr.purpose],
                                  if Truthy(qr.productCode) then [qr.productCode.value] else [])];
      } else {
        var e := acc'[u];
        e := e.(workers := AddToSet(e.workers, workerName));
        e := e.(totalScans := e.totalScans + OrZero(qr.scanCount));
        e := e.(purposes := AddToSet(e.purposes, qr.purpose));
        if Truthy(qr.productCode) {
          e := e.(productCodes := AddToSet(e.productCodes, qr.productCode.value));
        }
        acc' := acc'[u := e];
      }
    }
  }

  /** The `forEach` over one worker's codes, continuing from the accumulator
      of the codes `done` before them. */
  method AddWorkerCodes(order: seq<string>, acc: map<string, UserAgg>, worker: WorkerStat, ghost done: seq<Tagged>)
    returns (order': seq<string>, acc': map<string, UserAgg>)
    requires Agg(order, acc) == Aggregate(done)
    ensures Agg(order', acc') == Aggregate(done + TagAll(worker.name, worker.qrCodes))
  {
    order', acc' := order, acc;
    assert done + TagAll(worker.name, worker.qrCodes[..0]) == done;
    for j := 0 to |worker.qrCodes|
      invariant Agg(order', acc') == Aggregate(done + TagAll(worker.name, worker.qrCodes[..j]))
    {
      AppendTagged(done, worker.name, worker.qrCodes, j);
      AggregateAppend(done + TagAll(worker.name, worker.qrCodes[..j]), Tagged(worker.name, worker.qrCodes[j]));
      order', acc' := AddCode(order', acc', worker.name, worker.qrCodes[j]);
    }
    assert worker.qrCodes[..|worker.qrCodes|] == worker.qrCodes;
  }

  /** One more worker adds its tagged codes after those of the workers before. */
  lemma PairsSnoc(workers: seq<WorkerStat>, i: nat)
    requires i < |workers|
    ensures Pairs(workers[..i + 1]) == Pairs(workers[..i]) + TagAll(workers[i].name, workers[i].qrCodes)
  {
    assert workers[..i + 1][..i] == workers[..i];
  }

  /** The `workers.reduce(...)` that builds `allUsernames`, followed by
      `Object.values`: the accumulator is updated one QR code at a time,
      worker by worker. */
  method AggregateUsernames(workers: seq<WorkerStat>) returns (usernamesArray: seq<UserAgg>)
    ensures usernamesArray == UsernamesArray(Aggregate(Pairs(workers)))
  {
    var order: seq<string> := [];
    var acc: map<string, UserAgg> := map[];
    for i := 0 to |workers|
      invariant Agg(order, acc) == Aggregate(Pairs(workers[..i]))
    {
      order, acc := AddWorkerCodes(order, acc, workers[i], Pairs(workers[..i]));
      PairsSnoc(workers, i);
    }
    assert workers[..|workers|] == workers;
    usernamesArray := seq(|order|, k requires 0 <= k < |order| => acc[order[k]]);
  }

  // ----- Scans per day -----

  /** The sort key of `sortedDates`: a day, compared chronologically. */
  function DayKey(day: int): Sorting.Key {
    Sorting.Num(day)
  }

  /** `scans.reduce(...)` over the day of each fetched scan: the count per day
      and the keys in insertion order, which is first occurrence. */
  method ScansByDay(days: seq<int>) returns (scansByDay: map<int, nat>, dates: seq<int>)
    ensures scansByDay == Tally(days)
    ensures dates == Dedup(days)
  {
    scansByDay, dates := map[], [];
    for i := 0 to |days|
      invariant scansByDay == Tally(days[..i])
      invariant dates == Dedup(days[..i])
    {
      var date := days[i];
      assert days[..i + 1] == days[..i] + [date];
      TallyAppend(days[..i], date);
      if date !in scansByDay {
        dates := dates + [date];
      }
      scansByDay := scansByDay[date := (if date in scansByDay then scansByDay[date] else 0) + 1];
    }
    assert days[..|days|] == days;
  }

  function Sum(xs: seq<nat>): nat {
    if xs == [] then 0 else Sum(xs[..|xs| - 1]) + xs[|xs| - 1]
  }

  lemma {:induction false} SumOfCounts(labels: seq<int>, data: seq<nat>, days: seq<int>)
    requires |data| == |labels| && forall i | 0 <= i < |labels| :: data[i] == Count(days, labels[i])
    ensures Sum(data) == SumCounts(labels, days)
  {
    if labels != [] {
      SumOfCounts(labels[..|labels| - 1], data[..|data| - 1], days);
    }
  }

  /** The scans-per-day chart of `fetchStatistics`: the dates sorted
      chronologically, each once, and the count of every date. The dates are
      exactly the days that occur, strictly increasing, and the counts add up
      to the number of scans: each scan is counted in exactly one bucket. */
  method ScansPerDayChart(days: seq<int>) returns (labels: seq<int>, data: seq<nat>)
    ensures forall d :: d in labels <==> d in days
    ensures forall i, j | 0 <= i < j < |labels| :: labels[i] < labels[j]
    ensures |data| == |labels| && forall i | 0 <= i < |labels| :: data[i] == Count(days, labels[i])
    ensures Sum(data) == |days|
  {
    var scansByDay, dates := ScansByDay(days);
    labels := SortedDates(dates);
    data := seq(|labels|, i requires 0 <= i < |labels| => scansByDay[labels[i]]);
    SumOfCounts(labels, data, days);
    TallyTotal(labels, days);
  }

  /** `Object.keys(scansByDay).sort(...)`: distinct dates in strictly
      increasing order, the same dates as before. */
  function SortedDates(dates: seq<int>): (labels: seq<int>)
    requires Distinct(dates)
    ensures forall d :: d in labels <==> d in dates
    ensures Distinct(labels)
    ensures forall i, j | 0 <= i < j < |labels| :: labels[i] < labels[j]
  {
    var labels := Sorting.Sort(dates, DayKey, true);
    assert forall d :: d in labels <==> d in multiset(dates);
    DistinctPermutation(dates, labels);
    forall i, j | 0 <= i < j < |labels| ensures labels[i] < labels[j] {
      assert Sorting.Precedes(labels[i], labels[j], DayKey, true);
    }
    labels
  }

  // ----- Username search -----

  /** Some element of `ss`, lower-cased, includes `query`. */
  predicate AnyIncludes(ss: seq<string>, query: string) {
    exists i | 0 <= i < |ss| :: Includes(Lower(ss[i]), query)
  }

  /** The search condition: the lower-cased query occurs in the lower-cased
      username, or in some worker, purpose or product code. */
  predicate Matches(d: UserAgg, search: string)
    // the empty search matches every aggregate
    ensures search == "" ==> Matches(d, search)
  {
    var query := Lower(search);
    IncludesEmpty(Lower(d.username));
    Includes(Lower(d.username), query) || AnyIncludes(d.workers, query)
    || AnyIncludes(d.purposes, query) || AnyIncludes(d.productCodes, query)
  }

  /** `filter(Matches)`, keeping the order. */
  function MatchingUsers(s: seq<UserAgg>, search: string): (r: seq<UserAgg>)
    ensures |r| <= |s|
    ensures forall d :: d in r <==> d in s && Matches(d, search)
  {
    if s == [] then []
    else MatchingUsers(s[..|s| - 1], search) + (if Matches(s[|s| - 1], search) then [s[|s| - 1]] else [])
  }

  /** The search keeps the aggregates in their order, and keeps each matching
      one as often as it occurs. */
  lemma MatchingUsersKeepsOrder(s: seq<UserAgg>, search: string)
    ensures Subsequence(MatchingUsers(s, search), s)
    ensures forall d :: multiset(MatchingUsers(s, search))[d] == if Matches(d, search) then multiset(s)[d] else 0
  {
    MatchingSubsequence(s, search);
    MatchingCounts(s, search);
  }

  lemma {:induction false} MatchingSubsequence(s: seq<UserAgg>, search: string)
    ensures Subsequence(MatchingUsers(s, search), s)
  {
    if s == [] {
      SubsequenceEmpty<UserAgg>();
    } else {
      var init, last := s[..|s| - 1], s[|s| - 1];
      MatchingSubsequence(init, search);
      assert s == init + [last];
      SubsequenceSnoc(MatchingUsers(init, search), init, last, Matches(last, search));
    }
  }

  lemma {:induction false} MatchingCounts(s: seq<UserAgg>, search: string)
    ensures forall d :: multiset(MatchingUsers(s, search))[d] == if Matches(d, search) then multiset(s)[d] else 0
  {
    if s != [] {
      var init, last := s[..|s| - 1], s[|s| - 1];
      MatchingCounts(init, search);
      assert s == init + [last];
      var kept := if Matches(last, search) then [last] else [];
      assert multiset(MatchingUsers(s, search)) == multiset(MatchingUsers(init, search)) + multiset(kept);
    }
  }

  /** `usernamesData?.filter(...)`: nothing before the aggregates are loaded. */
  function SearchUsernames(usernamesData: Option<seq<UserAgg>>, search: string): (r: Option<seq<UserAgg>>)
    ensures usernamesData.None? <==> r.None?
    ensures r.Some? ==> forall d :: d in r.value <==> d in usernamesData.value && Matches(d, search)
    ensures r.Some? ==> Subsequence(r.value, usernamesData.value)
    ensures r.Some? ==> forall d :: multiset(r.value)[d] == if Matches(d, search) then multiset(usernamesData.value)[d] else 0
  {
    match usernamesData
    case None => None
    case Some(s) =>
      MatchingUsersKeepsOrder(s, search);
      Some(MatchingUsers(s, search))
  }

  /** An empty search keeps every aggregate, in order. */
  lemma {:induction false} EmptySearchKeepsAll(s: seq<UserAgg>)
    ensures MatchingUsers(s, "") == s
  {
    if s != [] {
      var init, last := s[..|s| - 1], s[|s| - 1];
      EmptySearchKeepsAll(init);
      assert Matches(last, "");
      assert s == init + [last];
    }
  }
}
