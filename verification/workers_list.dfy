/** The list shaping of src/components/WorkersList.jsx: the filtered and sorted
    workers, the filtered and sorted QR codes of the selected worker, the scan
    count per worker, the grouping of QR codes by worker, and the two sort
    toggles. The backend selects are inputs. */
module WorkersList {
  import opened Common
  import opened Collections
  import Sorting

  /** The fields of a `workers` row the list reads. */
  datatype Worker = Worker(id: string, name: string, code: string)

  /** The fields of a `qr_codes` row the list reads. */
  datatype QrCode = QrCode(id: string, workerId: Option<string>, purpose: string,
                           username: Option<string>, productCode: Option<string>)

  /** A `qr_scans` row with its joined QR code: `scan.qr_codes?.worker_id`,
      absent when the scan has no QR code or the code no worker. */
  datatype ScanRef = ScanRef(workerId: Option<string>)

  // ----- Sort direction -----

  /** `prev === 'asc' ? 'desc' : 'asc'`. */
  function Toggle(direction: string): (r: string)
    ensures r == "asc" || r == "desc"
    ensures r == "desc" <==> direction == "asc"
  {
    if direction == "asc" then "desc" else "asc"
  }

  /** On the two values the state takes, toggling twice changes nothing. */
  lemma ToggleTwice(direction: string)
    requires direction == "asc" || direction == "desc"
    ensures Toggle(Toggle(direction)) == direction
  {
  }

  // ----- Workers -----

  /** The worker search: the lower-cased query occurs in the lower-cased name or code. */
  predicate WorkerMatches(w: Worker, query: string)
    // the empty query matches every worker
    ensures query == "" ==> WorkerMatches(w, query)
    // a match is no longer than the name or the code it was found in
    ensures WorkerMatches(w, query) ==> |query| <= |w.name| || |query| <= |w.code|
  {
    IncludesEmpty(Lower(w.name));
    IncludesLength(Lower(w.name), query);
    IncludesLength(Lower(w.code), query);
    Includes(Lower(w.name), query) || Includes(Lower(w.code), query)
  }

  /** `filtered.filter(...)`, keeping the order. */
  function WorkersMatching(ws: seq<Worker>, query: string): (r: seq<Worker>)
    ensures |r| <= |ws|
    ensures forall w :: w in r <==> w in ws && WorkerMatches(w, query)
  {
    if ws == [] then []
    else WorkersMatching(ws[..|ws| - 1], query) + (if WorkerMatches(ws[|ws| - 1], query) then [ws[|ws| - 1]] else [])
  }

  /** The search keeps the workers in their order, and keeps each matching
      one as often as it occurs. */
  lemma WorkersMatchingKeepsOrder(ws: seq<Worker>, query: string)
    ensures Subsequence(WorkersMatching(ws, query), ws)
    ensures forall w :: multiset(WorkersMatching(ws, query))[w] == if WorkerMatches(w, query) then multiset(ws)[w] else 0
  {
    WorkersMatchingSubsequence(ws, query);
    WorkersMatchingCounts(ws, query);
  }

  lemma {:induction false} WorkersMatchingSubsequence(ws: seq<Worker>, query: string)
    ensures Subsequence(WorkersMatching(ws, query), ws)
  {
    if ws == [] {
      SubsequenceEmpty<Worker>();
    } else {
      var init, last := ws[..|ws| - 1], ws[|ws| - 1];
      WorkersMatchingSubsequence(init, query);
      assert ws == init + [last];
      SubsequenceSnoc(WorkersMatching(init, query), init, last, WorkerMatches(last, query));
    }
  }

  lemma {:induction false} WorkersMatchingCounts(ws: seq<Worker>, query: string)
    ensures forall w :: multiset(WorkersMatching(ws, query))[w] == if WorkerMatches(w, query) then multiset(ws)[w] else 0
  {
    if ws != [] {
      var init, last := ws[..|ws| - 1], ws[|ws| - 1];
      WorkersMatchingCounts(init, query);
      assert ws == init + [last];
      var kept := if WorkerMatches(last, query) then [last] else [];
      assert multiset(WorkersMatching(ws, query)) == multiset(WorkersMatching(init, query)) + multiset(kept);
    }
  }

  /** The sort key of the worker comparator: the lower-cased name. */
  function NameKey(w: Worker): (k: Sorting.Key)
    // the key is a text of the name's length that lower-casing leaves as it is,
    // so the order does not depend on the case of the names
    ensures k.Text? && |k.s| == |w.name| && Lower(k.s) == k.s
  {
    LowerIdempotent(w.name);
    Sorting.Text(Lower(w.name))
  }

  /** `filteredWorkers`: a copy of `workers`, filtered when the query is not
      empty, ordered by lower-cased name, ascending when the direction is
      'asc' and descending otherwise. */
  function FilteredWorkers(workers: seq<Worker>, searchQuery: string, sortDirection: string): (r: seq<Worker>)
    ensures searchQuery == "" ==> multiset(r) == multiset(workers)
    ensures forall w :: w in r <==> w in workers && (searchQuery == "" || WorkerMatches(w, Lower(searchQuery)))
    // each worker that passes the search is kept as often as it occurs, and no other
    ensures forall w :: multiset(r)[w] == if searchQuery == "" || WorkerMatches(w, Lower(searchQuery)) then multiset(workers)[w] else 0
    ensures forall i, j | 0 <= i < j < |r| ::
              if sortDirection == "asc" then Sorting.LexLe(Lower(r[i].name), Lower(r[j].name))
              else Sorting.LexLe(Lower(r[j].name), Lower(r[i].name))
  {
    var filtered := if searchQuery != "" then WorkersMatching(workers, Lower(searchQuery)) else workers;
    WorkersMatchingCounts(workers, Lower(searchQuery));
    var r := Sorting.Sort(filtered, NameKey, sortDirection == "asc");
    assert forall w :: w in r <==> w in multiset(filtered);
    assert forall i, j | 0 <= i < j < |r| :: Sorting.Precedes(r[i], r[j], NameKey, sortDirection == "asc");
    r
  }

  // ----- QR codes of the selected worker -----

  /** The QR search: the lower-cased query occurs in the lower-cased purpose,
      or in the username or the product code when those are present. */
  predicate QrMatches(qr: QrCode, query: string)
    // the empty query matches every code
    ensures query == "" ==> QrMatches(qr, query)
  {
    IncludesEmpty(Lower(qr.purpose));
    Includes(Lower(qr.purpose), query)
    || (Truthy(qr.username) && Includes(Lower(qr.username.value), query))
    || (Truthy(qr.productCode) && Includes(Lower(qr.productCode.value), query))
  }

  /** `filtered.filter(...)`, keeping the order. */
  function QrCodesMatching(qrs: seq<QrCode>, query: string): (r: seq<QrCode>)
    ensures |r| <= |qrs|
    ensures forall q :: q in r <==> q in qrs && QrMatches(q, query)
  {
    if qrs == [] then []
    else QrCodesMatching(qrs[..|qrs| - 1], query) + (if QrMatches(qrs[|qrs| - 1], query) then [qrs[|qrs| - 1]] else [])
  }

  /** The search keeps the codes in their order, and keeps each matching
      one as often as it occurs. */
  lemma QrCodesMatchingKeepsOrder(qrs: seq<QrCode>, query: string)
    ensures Subsequence(QrCodesMatching(qrs, query), qrs)
    ensures forall q :: multiset(QrCodesMatching(qrs, query))[q] == if QrMatches(q, query) then multiset(qrs)[q] else 0
  {
    QrCodesMatchingSubsequence(qrs, query);
    QrCodesMatchingCounts(qrs, query);
  }

  lemma {:induction false} QrCodesMatchingSubsequence(qrs: seq<QrCode>, query: string)
    ensures Subsequence(QrCodesMatching(qrs, query), qrs)
  {
    if qrs == [] {
      SubsequenceEmpty<QrCode>();
    } else {
      var init, last := qrs[..|qrs| - 1], qrs[|qrs| - 1];
      QrCodesMatchingSubsequence(init, query);
      assert qrs == init + [last];
      SubsequenceSnoc(QrCodesMatching(init, query), init, last, QrMatches(last, query));
    }
  }

  lemma {:induction false} QrCodesMatchingCounts(qrs: seq<QrCode>, query: string)
    ensures forall q :: multiset(QrCodesMatching(qrs, query))[q] == if QrMatches(q, query) then multiset(qrs)[q] else 0
  {
    if qrs != [] {
      var init, last := qrs[..|qrs| - 1], qrs[|qrs| - 1];
      QrCodesMatchingCounts(init, query);
      assert qrs == init + [last];
      var kept := if QrMatches(last, query) then [last] else [];
      assert multiset(QrCodesMatching(qrs, query)) == multiset(QrCodesMatching(init, query)) + multiset(kept);
    }
  }

  /** The sort key of the QR comparator: the lower-cased purpose. */
  function PurposeKey(qr: QrCode): (k: Sorting.Key)
    // a text of the purpose's length that lower-casing leaves as it is
    ensures k.Text? && |k.s| == |qr.purpose| && Lower(k.s) == k.s
  {
    LowerIdempotent(qr.purpose);
    Sorting.Text(Lower(qr.purpose))
  }

  /** The QR comparator applied by `sort`: by lower-cased purpose, ascending
      when `asc` and descending otherwise. */
  function SortedByPurpose(qrs: seq<QrCode>, asc: bool): (r: seq<QrCode>)
    ensures multiset(r) == multiset(qrs)
    ensures forall i, j | 0 <= i < j < |r| ::
              if asc then Sorting.LexLe(Lower(r[i].purpose), Lower(r[j].purpose))
              else Sorting.LexLe(Lower(r[j].purpose), Lower(r[i].purpose))
  {
    var r := Sorting.Sort(qrs, PurposeKey, asc);
    assert forall i, j | 0 <= i < j < |r| :: Sorting.Precedes(r[i], r[j], PurposeKey, asc);
    r
  }

  /** `filteredQRCodes`: empty without a selected worker or without codes
      for it; otherwise a copy of its codes, filtered when the query is not
      empty, ordered by lower-cased purpose per the direction. */
  function FilteredQRCodes(selectedWorker: Option<Worker>, qrCodes: map<string, seq<QrCode>>,
                           qrSearchQuery: string, qrSortDirection: string): (r: seq<QrCode>)
    ensures selectedWorker.None? || selectedWorker.value.id !in qrCodes ==> r == []
    ensures selectedWorker.Some? && selectedWorker.value.id in qrCodes ==>
              var own := qrCodes[selectedWorker.value.id];
              (qrSearchQuery == "" ==> multiset(r) == multiset(own))
              && (forall q :: q in r <==> q in own && (qrSearchQuery == "" || QrMatches(q, Lower(qrSearchQuery))))
              // each code that passes the search is kept as often as it occurs, and no other
              && forall q :: multiset(r)[q] == if qrSearchQuery == "" || QrMatches(q, Lower(qrSearchQuery)) then multiset(own)[q] else 0
    ensures forall i, j | 0 <= i < j < |r| ::
              if qrSortDirection == "asc" then Sorting.LexLe(Lower(r[i].purpose), Lower(r[j].purpose))
              else Sorting.LexLe(Lower(r[j].purpose), Lower(r[i].purpose))
  {
    if selectedWorker.None? || selectedWorker.value.id !in qrCodes then []
    else
      var own := qrCodes[selectedWorker.value.id];
      var filtered := if qrSearchQuery != "" then QrCodesMatching(own, Lower(qrSearchQuery)) else own;
      QrCodesMatchingCounts(own, Lower(qrSearchQuery));
      var r := SortedByPurpose(filtered, qrSortDirection == "asc");
      assert forall q :: q in r <==> q in multiset(filtered);
      r
  }

  // ----- Scan counts per worker -----

  /** The truthy `worker_id`s of the scans, in order. */
  function ScanWorkerIds(scans: seq<ScanRef>): (r: seq<string>)
    ensures |r| <= |scans|
    ensures forall w :: w in r <==> exists k | 0 <= k < |scans| :: scans[k].workerId == Some(w) && w != ""
  {
    if scans == [] then []
    else
      var init, last := scans[..|scans| - 1], scans[|scans| - 1];
      assert forall k | 0 <= k < |init| :: init[k] == scans[k];
      ScanWorkerIds(init) + (if Truthy(last.workerId) then [last.workerId.value] else [])
  }

  lemma IdsAppend(scans: seq<ScanRef>, scan: ScanRef)
    ensures ScanWorkerIds(scans + [scan]) == ScanWorkerIds(scans) + (if Truthy(scan.workerId) then [scan.workerId.value] else [])
  {
    assert (scans + [scan])[..|scans|] == scans;
  }

  /** `workerScanCounts`: for each worker id, the number of scans whose QR
      code belongs to it; scans without a worker id are skipped. */
  method WorkerScanCounts(scans: seq<ScanRef>) returns (counts: map<string, nat>)
    ensures counts == Tally(ScanWorkerIds(scans))
  {
    counts := map[];
    for i := 0 to |scans|
      invariant counts == Tally(ScanWorkerIds(scans[..i]))
    {
      var workerId := scans[i].workerId;
      ghost var ids := ScanWorkerIds(scans[..i]);
      IdsAppend(scans[..i], scans[i]);
      assert scans[..i + 1] == scans[..i] + [scans[i]];
      if Truthy(workerId) {
        var w := workerId.value;
        assert ScanWorkerIds(scans[..i + 1]) == ids + [w];
        TallyAppend(ids, w);
        counts := counts[w := (if w in counts then counts[w] else 0) + 1];
        assert counts == Tally(ids + [w]);
      } else {
        assert ScanWorkerIds(scans[..i + 1]) == ids;
      }
    }
    assert scans[..|scans|] == scans;
  }

  /** The counts, added up over the workers in key order, are the number of
      scans that have a worker id, and so at most the number of scans. */
  lemma ScanCountsTotal(scans: seq<ScanRef>)
    ensures var ids := ScanWorkerIds(scans);
            SumCounts(Dedup(ids), ids) == |ids| <= |scans|
  {
    var ids := ScanWorkerIds(scans);
    TallyTotal(Dedup(ids), ids);
  }

  // ----- QR codes grouped by worker -----

  /** The object key `acc[qr.worker_id]` uses: the id, or "null" without one. */
  function GroupKey(qr: QrCode): (k: string)
    ensures qr.workerId.Some? ==> k == qr.workerId.value
    // a missing id and the id "null" land in the same group
    ensures k == "null" <==> qr.workerId.None? || qr.workerId == Some("null")
  {
    if qr.workerId.Some? then qr.workerId.value else "null"
  }

  /** The group keys of the codes, in order. */
  function Keys(qrs: seq<QrCode>): (r: seq<string>)
    ensures |r| == |qrs| && forall k | 0 <= k < |qrs| :: r[k] == GroupKey(qrs[k])
  {
    if qrs == [] then [] else Keys(qrs[..|qrs| - 1]) + [GroupKey(qrs[|qrs| - 1])]
  }

  /** The codes with group key `key`, in input order. */
  function InGroup(qrs: seq<QrCode>, key: string): (r: seq<QrCode>)
    ensures forall q :: q in r <==> q in qrs && GroupKey(q) == key
  {
    if qrs == [] then []
    else InGroup(qrs[..|qrs| - 1], key) + (if GroupKey(qrs[|qrs| - 1]) == key then [qrs[|qrs| - 1]] else [])
  }

  /** A group keeps its codes in input order, and keeps each code with its
      key as often as it occurs. */
  lemma InGroupKeepsOrder(qrs: seq<QrCode>, key: string)
    ensures Subsequence(InGroup(qrs, key), qrs)
    ensures forall q :: multiset(InGroup(qrs, key))[q] == if GroupKey(q) == key then multiset(qrs)[q] else 0
  {
    InGroupSubsequence(qrs, key);
    InGroupCounts(qrs, key);
  }

  lemma {:induction false} InGroupSubsequence(qrs: seq<QrCode>, key: string)
    ensures Subsequence(InGroup(qrs, key), qrs)
  {
    if qrs == [] {
      SubsequenceEmpty<QrCode>();
    } else {
      var init, last := qrs[..|qrs| - 1], qrs[|qrs| - 1];
      InGroupSubsequence(init, key);
      assert qrs == init + [last];
      SubsequenceSnoc(InGroup(init, key), init, last, GroupKey(last) == key);
    }
  }

  lemma {:induction false} InGroupCounts(qrs: seq<QrCode>, key: string)
    ensures forall q :: multiset(InGroup(qrs, key))[q] == if GroupKey(q) == key then multiset(qrs)[q] else 0
  {
    if qrs != [] {
      var init, last := qrs[..|qrs| - 1], qrs[|qrs| - 1];
      InGroupCounts(init, key);
      assert qrs == init + [last];
      var kept := if GroupKey(last) == key then [last] else [];
      assert multiset(InGroup(qrs, key)) == multiset(InGroup(init, key)) + multiset(kept);
    }
  }

  /** A group has as many codes as there are codes with its key. */
  lemma {:induction false} GroupSize(qrs: seq<QrCode>, key: string)
    ensures |InGroup(qrs, key)| == Count(Keys(qrs), key)
  {
    if qrs != [] {
      var init := qrs[..|qrs| - 1];
      assert Keys(qrs)[..|qrs| - 1] == Keys(init);
      GroupSize(init, key);
    }
  }

  /** The grouping: one group per key that occurs, holding that key's codes. */
  function Grouping(qrs: seq<QrCode>): (groups: map<string, seq<QrCode>>)
    ensures forall key :: key in groups <==> key in Keys(qrs)
  {
    map key | key in Keys(qrs) :: InGroup(qrs, key)
  }

  lemma KeysAppend(qrs: seq<QrCode>, qr: QrCode)
    ensures Keys(qrs + [qr]) == Keys(qrs) + [GroupKey(qr)]
  {
    assert (qrs + [qr])[..|qrs|] == qrs;
  }

  lemma InGroupAppend(qrs: seq<QrCode>, qr: QrCode, key: string)
    ensures InGroup(qrs + [qr], key) == InGroup(qrs, key) + (if GroupKey(qr) == key then [qr] else [])
  {
    assert (qrs + [qr])[..|qrs|] == qrs;
  }

  /** A key that does not occur has an empty group. */
  lemma InGroupAbsent(qrs: seq<QrCode>, key: string)
    requires key !in Keys(qrs)
    ensures InGroup(qrs, key) == []
  {
    GroupSize(qrs, key);
  }

  /** One more code is pushed onto the group of its key, which starts empty. */
  lemma GroupingAppend(qrs: seq<QrCode>, qr: QrCode)
    ensures var g := Grouping(qrs); var key := GroupKey(qr);
            Grouping(qrs + [qr]) == g[key := (if key in g then g[key] else []) + [qr]]
  {
    var g := Grouping(qrs);
    var key := GroupKey(qr);
    var lhs := Grouping(qrs + [qr]);
    var rhs := g[key := (if key in g then g[key] else []) + [qr]];
    KeysAppend(qrs, qr);
    assert lhs.Keys == rhs.Keys;
    forall x | x in lhs ensures lhs[x] == rhs[x] {
      InGroupAppend(qrs, qr, x);
      if x !in g {
        InGroupAbsent(qrs, x);
      }
    }
  }

  /** `qrCodesByWorker`: each code pushed onto the array of its worker key,
      the array starting empty on first use. */
  method QrCodesByWorker(qrCodesData: seq<QrCode>) returns (groups: map<string, seq<QrCode>>)
    ensures groups == Grouping(qrCodesData)
  {
    groups := map[];
    for i := 0 to |qrCodesData|
      invariant groups == Grouping(qrCodesData[..i])
    {
      var qr := qrCodesData[i];
      assert qrCodesData[..i + 1] == qrCodesData[..i] + [qr];
      GroupingAppend(qrCodesData[..i], qr);
      var key := GroupKey(qr);
      var group: seq<QrCode> := [];
      if key in groups {
        group := groups[key];
      }
      groups := groups[key := group + [qr]];
    }
    assert qrCodesData[..|qrCodesData|] == qrCodesData;
  }

  /** Each code lies in the group of its own worker and in no other, and the
      group sizes, added up over the keys in insertion order, give the number
      of codes: every code is placed exactly once. */
  lemma GroupingPartitions(qrs: seq<QrCode>)
    ensures var g := Grouping(qrs);
            (forall q, key | q in qrs && key in g :: q in g[key] <==> key == GroupKey(q))
            && SumCounts(Dedup(Keys(qrs)), Keys(qrs)) == |qrs|
    ensures forall key | key in Grouping(qrs) :: |Grouping(qrs)[key]| == Count(Keys(qrs), key)
  {
    var g := Grouping(qrs);
    forall q | q in qrs ensures GroupKey(q) in g {
      var k :| 0 <= k < |qrs| && qrs[k] == q;
    }
    forall key | key in g ensures |g[key]| == Count(Keys(qrs), key) {
      GroupSize(qrs, key);
    }
    TallyTotal(Dedup(Keys(qrs)), Keys(qrs));
  }
}
