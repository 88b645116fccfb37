/** The dashboard's aggregations over the loan applications it fetched:
    status counts, monthly buckets, per-purpose sums and the search and
    status filter; and its two guarded admin actions, the document
    verification update and the disbursement. */
module Dashboard {
  import opened JsText

  /** One loan application as the dashboard reads it. `monthKey` is the
      "YYYY-MM" key of its date; `loanAmount` is `Number(app.loanAmount)`. */
  datatype Application = Application(
    applicationId: int,
    name: Option<string>,
    purpose: Option<string>,
    status: string,
    loanAmount: int,
    monthKey: string)

  /** The property an aggregation groups by. */
  datatype KeyField = StatusKey | MonthKey | PurposeKey

  /** The object key a missing purpose is grouped under. */
  const MissingPurpose := "undefined"

  function KeyOf(a: Application, f: KeyField): string {
    match f
    case StatusKey => a.status
    case MonthKey => a.monthKey
    case PurposeKey => if a.purpose.Some? then a.purpose.value else MissingPurpose
  }

  /** APPROVED and DISBURSED both count as approved in the charts. */
  predicate ApprovedLike(a: Application) {
    a.status == "APPROVED" || a.status == "DISBURSED"
  }

  /** What an aggregation adds up per application. */
  datatype Weight = Unit | ApprovedUnit | Amount

  function WeightOf(a: Application, w: Weight): int {
    match w
    case Unit => 1
    case ApprovedUnit => if ApprovedLike(a) then 1 else 0
    case Amount => a.loanAmount
  }

  /** The sum of the weights of all applications. */
  function Total(apps: seq<Application>, w: Weight): int {
    if apps == [] then 0 else Total(apps[..|apps| - 1], w) + WeightOf(apps[|apps| - 1], w)
  }

  /** The sum of the weights of the applications whose key is k. */
  function KeyedTotal(apps: seq<Application>, f: KeyField, k: string, w: Weight): int {
    if apps == [] then 0
    else
      var last := apps[|apps| - 1];
      KeyedTotal(apps[..|apps| - 1], f, k, w) + (if KeyOf(last, f) == k then WeightOf(last, w) else 0)
  }

  predicate Distinct(ks: seq<string>) {
    forall i, j :: 0 <= i < j < |ks| ==> ks[i] != ks[j]
  }

  /** The keys of the applications in order of first appearance: the key
      order of an object filled by `acc[key] = ...`. */
  function DistinctKeys(apps: seq<Application>, f: KeyField): (ks: seq<string>)
    ensures Distinct(ks)
    ensures forall k :: k in ks <==> exists i :: 0 <= i < |apps| && KeyOf(apps[i], f) == k
  {
    if apps == [] then []
    else
      var init := apps[..|apps| - 1];
      var d := DistinctKeys(init, f);
      var k := KeyOf(apps[|apps| - 1], f);
      assert forall i :: 0 <= i < |init| ==> apps[i] == init[i];
      if k in d then d else d + [k]
  }

  /** The sum of KeyedTotal over a list of keys. */
  function SumKeyed(apps: seq<Application>, f: KeyField, ks: seq<string>, w: Weight): int {
    if ks == [] then 0 else KeyedTotal(apps, f, ks[0], w) + SumKeyed(apps, f, ks[1..], w)
  }

  lemma {:induction false} KeyedTotalAbsent(apps: seq<Application>, f: KeyField, k: string, w: Weight)
    requires forall i :: 0 <= i < |apps| ==> KeyOf(apps[i], f) != k
    ensures KeyedTotal(apps, f, k, w) == 0
  {
    if apps != [] {
      var init := apps[..|apps| - 1];
      assert forall i :: 0 <= i < |init| ==> init[i] == apps[i];
      KeyedTotalAbsent(init, f, k, w);
    }
  }

  lemma KeyedTotalSnoc(init: seq<Application>, a: Application, f: KeyField, k: string, w: Weight)
    ensures KeyedTotal(init + [a], f, k, w) == KeyedTotal(init, f, k, w) + (if KeyOf(a, f) == k then WeightOf(a, w) else 0)
  {
    assert (init + [a])[..|init|] == init;
  }

  lemma {:induction false} SumKeyedSnoc(init: seq<Application>, a: Application, f: KeyField, ks: seq<string>, w: Weight)
    requires Distinct(ks)
    ensures SumKeyed(init + [a], f, ks, w) == SumKeyed(init, f, ks, w) + (if KeyOf(a, f) in ks then WeightOf(a, w) else 0)
  {
    if ks != [] {
      KeyedTotalSnoc(init, a, f, ks[0], w);
      assert Distinct(ks[1..]);
      SumKeyedSnoc(init, a, f, ks[1..], w);
      if KeyOf(a, f) == ks[0] {
        assert KeyOf(a, f) !in ks[1..];
      }
    }
  }

  /** Grouping by any list of distinct keys that covers every application
      loses nothing: the group totals add up to the overall total. */
  lemma {:induction false} GroupTotalsAddUp(apps: seq<Application>, f: KeyField, ks: seq<string>, w: Weight)
    requires Distinct(ks)
    requires forall i :: 0 <= i < |apps| ==> KeyOf(apps[i], f) in ks
    ensures SumKeyed(apps, f, ks, w) == Total(apps, w)
    decreases |apps|
  {
    if apps == [] {
      SumKeyedEmpty(f, ks, w);
    } else {
      var init := apps[..|apps| - 1];
      var a := apps[|apps| - 1];
      assert apps == init + [a];
      assert forall i :: 0 <= i < |init| ==> init[i] == apps[i];
      GroupTotalsAddUp(init, f, ks, w);
      SumKeyedSnoc(init, a, f, ks, w);
    }
  }

  lemma {:induction false} SumKeyedEmpty(f: KeyField, ks: seq<string>, w: Weight)
    ensures SumKeyed([], f, ks, w) == 0
  {
    if ks != [] {
      SumKeyedEmpty(f, ks[1..], w);
    }
  }

  lemma {:induction false} ApprovedAtMostCount(apps: seq<Application>, f: KeyField, k: string)
    ensures 0 <= KeyedTotal(apps, f, k, ApprovedUnit) <= KeyedTotal(apps, f, k, Unit)
  {
    if apps != [] {
      ApprovedAtMostCount(apps[..|apps| - 1], f, k);
    }
  }

  lemma {:induction false} CountAtMostLength(apps: seq<Application>, f: KeyField, k: string)
    ensures 0 <= KeyedTotal(apps, f, k, Unit) <= |apps|
  {
    if apps != [] {
      CountAtMostLength(apps[..|apps| - 1], f, k);
    }
  }

  lemma {:induction false} TotalUnitIsLength(apps: seq<Application>)
    ensures Total(apps, Unit) == |apps|
  {
    if apps != [] {
      TotalUnitIsLength(apps[..|apps| - 1]);
    }
  }

  // ---------------------------------------------------------------- status data

  /** A slice of the status pie chart. */
  datatype StatusEntry = StatusEntry(name: string, value: int)

  /** The number of applications with the given status. */
  function CountOf(apps: seq<Application>, status: string): int {
    KeyedTotal(apps, StatusKey, status, Unit)
  }

  /** The four statuses the pie chart shows, in its fixed order. */
  const ChartStatuses: seq<string> := ["PENDING", "APPROVED", "REJECTED", "DISBURSED"]
  const ChartLabels: seq<string> := ["Pending", "Approved", "Rejected", "Disbursed"]

  /** Position of a label in the fixed order (4 for any other name). */
  function LabelRank(name: string): nat {
    if name == "Pending" then 0
    else if name == "Approved" then 1
    else if name == "Rejected" then 2
    else if name == "Disbursed" then 3
    else 4
  }

  function Slice(apps: seq<Application>, k: nat): StatusEntry
    requires k < 4
  {
    StatusEntry(ChartLabels[k], CountOf(apps, ChartStatuses[k]))
  }

  function IfPositive(e: StatusEntry): seq<StatusEntry> {
    if e.value > 0 then [e] else []
  }

  /** The slices of the chart statuses from position k on that have a
      positive count, in the fixed order. */
  function PositiveSlices(apps: seq<Application>, k: nat): (r: seq<StatusEntry>)
    requires k <= 4
    ensures forall i :: 0 <= i < |r| ==>
      k <= LabelRank(r[i].name) < 4 && r[i] == Slice(apps, LabelRank(r[i].name)) && r[i].value > 0
    ensures forall i, j :: 0 <= i < j < |r| ==> LabelRank(r[i].name) < LabelRank(r[j].name)
    ensures forall m :: k <= m < 4 ==> (Slice(apps, m) in r <==> Slice(apps, m).value > 0)
    decreases 4 - k
  {
    if k == 4 then []
    else
      assert LabelRank(ChartLabels[k]) == k;
      var rest := PositiveSlices(apps, k + 1);
      assert Slice(apps, k) !in rest;
      IfPositive(Slice(apps, k)) + rest
  }

  /** getStatusData: one slice per chart status with at least one
      application, in the fixed order, each carrying its count. */
  function StatusData(apps: seq<Application>): (r: seq<StatusEntry>)
    ensures forall i :: 0 <= i < |r| ==>
      LabelRank(r[i].name) < 4 && r[i] == Slice(apps, LabelRank(r[i].name)) && r[i].value > 0
    ensures forall i, j :: 0 <= i < j < |r| ==> LabelRank(r[i].name) < LabelRank(r[j].name)
    ensures forall m :: 0 <= m < 4 ==> (Slice(apps, m) in r <==> CountOf(apps, ChartStatuses[m]) > 0)
  {
    PositiveSlices(apps, 0)
  }

  function SumValues(es: seq<StatusEntry>): int {
    if es == [] then 0 else es[0].value + SumValues(es[1..])
  }

  lemma {:induction false} SumValuesAppend(a: seq<StatusEntry>, b: seq<StatusEntry>)
    ensures SumValues(a + b) == SumValues(a) + SumValues(b)
  {
    if a == [] {
      assert a + b == b;
    } else {
      assert (a + b)[1..] == a[1..] + b;
      SumValuesAppend(a[1..], b);
    }
  }

  /** The slices from position k on add up to the counts of the statuses
      from position k on. */
  lemma {:induction false} SumPositiveSlices(apps: seq<Application>, k: nat)
    requires k <= 4
    ensures SumValues(PositiveSlices(apps, k)) == SumKeyed(apps, StatusKey, ChartStatuses[k..], Unit)
    decreases 4 - k
  {
    if k == 4 {
      assert ChartStatuses[k..] == [];
    } else {
      var e := Slice(apps, k);
      var rest := PositiveSlices(apps, k + 1);
      assert PositiveSlices(apps, k) == IfPositive(e) + rest;
      SumPositiveSlices(apps, k + 1);
      SumValuesAppend(IfPositive(e), rest);
      CountAtMostLength(apps, StatusKey, ChartStatuses[k]);
      assert SumValues(IfPositive(e)) == e.value == KeyedTotal(apps, StatusKey, ChartStatuses[k], Unit);
      assert ChartStatuses[k..][1..] == ChartStatuses[k + 1..];
    }
  }

  lemma ChartStatusesDistinct()
    ensures Distinct(ChartStatuses)
  {
    forall i, j | 0 <= i < j < |ChartStatuses| ensures ChartStatuses[i] != ChartStatuses[j] {
      assert ChartStatuses[i][0] != ChartStatuses[j][0];
    }
  }

  /** When every application has one of the four chart statuses, the slices
      add up to the number of applications. */
  lemma StatusDataCoversAll(apps: seq<Application>)
    requires forall i :: 0 <= i < |apps| ==> apps[i].status in ChartStatuses
    ensures SumValues(StatusData(apps)) == |apps|
  {
    SumPositiveSlices(apps, 0);
    assert ChartStatuses[0..] == ChartStatuses;
    ChartStatusesDistinct();
    assert forall i :: 0 <= i < |apps| ==> KeyOf(apps[i], StatusKey) in ChartStatuses;
    GroupTotalsAddUp(apps, StatusKey, ChartStatuses, Unit);
    TotalUnitIsLength(apps);
  }

  // ---------------------------------------------------------------- monthly data

  /** One month of the bar chart. */
  datatype MonthBucket = MonthBucket(applications: int, approved: int, month: string)

  /** The bucket the month key k receives from the given applications. */
  function BucketFor(apps: seq<Application>, k: string): MonthBucket {
    MonthBucket(KeyedTotal(apps, MonthKey, k, Unit), KeyedTotal(apps, MonthKey, k, ApprovedUnit), k)
  }

  /** Code-unit order on strings: `localeCompare` on month keys made of
      digits and '-' sorts the same way. */
  predicate LexLeq(a: string, b: string) {
    a == [] || (b != [] && (a[0] < b[0] || (a[0] == b[0] && LexLeq(a[1..], b[1..]))))
  }

  lemma {:induction false} LexLeqTotal(a: string, b: string)
    ensures LexLeq(a, b) || LexLeq(b, a)
  {
    if a != [] && b != [] && a[0] == b[0] {
      LexLeqTotal(a[1..], b[1..]);
    }
  }

  lemma {:induction false} LexLeqTransitive(a: string, b: string, c: string)
    requires LexLeq(a, b) && LexLeq(b, c)
    ensures LexLeq(a, c)
  {
    if a != [] && b != [] && c != [] && a[0] == b[0] && b[0] == c[0] {
      LexLeqTransitive(a[1..], b[1..], c[1..]);
    }
  }

  predicate SortedByMonth(s: seq<MonthBucket>) {
    forall i, j :: 0 <= i < j < |s| ==> LexLeq(s[i].month, s[j].month)
  }

  /** Insert b before the first bucket whose month it does not exceed. */
  function InsertByMonth(s: seq<MonthBucket>, b: MonthBucket): (r: seq<MonthBucket>)
    ensures multiset(r) == multiset(s) + multiset{b}
  {
    if s == [] then [b]
    else if LexLeq(b.month, s[0].month) then [b] + s
    else
      assert s == [s[0]] + s[1..];
      [s[0]] + InsertByMonth(s[1..], b)
  }

  /** Inserting adds b and nothing else. */
  lemma InsertElements(s: seq<MonthBucket>, b: MonthBucket, x: MonthBucket)
    requires x in InsertByMonth(s, b) && x != b
    ensures x in s
  {
    assert x in multiset(InsertByMonth(s, b));
    assert x in multiset(s);
  }

  lemma {:induction false} InsertKeepsSorted(s: seq<MonthBucket>, b: MonthBucket)
    requires SortedByMonth(s)
    ensures SortedByMonth(InsertByMonth(s, b))
  {
    if s == [] {
    } else if LexLeq(b.month, s[0].month) {
      forall i | 0 <= i < |s| ensures LexLeq(b.month, s[i].month) {
        if i > 0 { LexLeqTransitive(b.month, s[0].month, s[i].month); }
      }
    } else {
      LexLeqTotal(b.month, s[0].month);
      var rest := InsertByMonth(s[1..], b);
      InsertKeepsSorted(s[1..], b);
      forall x | x in rest ensures LexLeq(s[0].month, x.month) {
        if x != b {
          InsertElements(s[1..], b, x);
          var j :| 0 <= j < |s[1..]| && s[1..][j] == x;
          assert s[j + 1] == x;
        }
      }
      var r := [s[0]] + rest;
      assert InsertByMonth(s, b) == r;
      forall i, j | 0 <= i < j < |r| ensures LexLeq(r[i].month, r[j].month) {
        if i == 0 { assert r[j] in rest; }
        else { assert r[i] == rest[i - 1] && r[j] == rest[j - 1]; }
      }
    }
  }

  /** `Array.prototype.sort` by month, as an insertion sort. */
  function SortByMonth(s: seq<MonthBucket>): (r: seq<MonthBucket>)
    ensures multiset(r) == multiset(s)
  {
    if s == [] then []
    else
      assert s == s[..|s| - 1] + [s[|s| - 1]];
      InsertByMonth(SortByMonth(s[..|s| - 1]), s[|s| - 1])
  }

  lemma {:induction false} SortIsSorted(s: seq<MonthBucket>)
    ensures SortedByMonth(SortByMonth(s))
  {
    if s != [] {
      SortIsSorted(s[..|s| - 1]);
      InsertKeepsSorted(SortByMonth(s[..|s| - 1]), s[|s| - 1]);
    }
  }

  /** The buckets of the given months, in that order. */
  function BucketsOf(apps: seq<Application>, ks: seq<string>): (bs: seq<MonthBucket>)
    ensures |bs| == |ks|
    ensures forall i :: 0 <= i < |ks| ==> bs[i] == BucketFor(apps, ks[i])
  {
    seq(|ks|, i requires 0 <= i < |ks| => BucketFor(apps, ks[i]))
  }

  /** The reference result of getMonthlyData: one bucket per month in first
      appearance order, then sorted by month. */
  function MonthlyData(apps: seq<Application>): seq<MonthBucket> {
    if apps == [] then [] else SortByMonth(BucketsOf(apps, DistinctKeys(apps, MonthKey)))
  }

  lemma {:induction false} DistinctKeysSnoc(init: seq<Application>, a: Application, f: KeyField)
    ensures DistinctKeys(init + [a], f) ==
      if KeyOf(a, f) in DistinctKeys(init, f) then DistinctKeys(init, f) else DistinctKeys(init, f) + [KeyOf(a, f)]
  {
    assert (init + [a])[..|init|] == init;
  }

  /** Adding one application to the input changes only its own month's
      bucket: one more application, and one more approval if it is approved. */
  lemma BucketSnoc(init: seq<Application>, a: Application, k: string)
    ensures BucketFor(init + [a], k) ==
      if a.monthKey == k then
        BucketFor(init, k).(applications := BucketFor(init, k).applications + 1,
                            approved := BucketFor(init, k).approved + (if ApprovedLike(a) then 1 else 0))
      else BucketFor(init, k)
  {
    KeyedTotalSnoc(init, a, MonthKey, k, Unit);
    KeyedTotalSnoc(init, a, MonthKey, k, ApprovedUnit);
  }

  /** What the dictionary holds after the applications of `prefix`: the
      keys in first-appearance order, each with its bucket. */
  ghost predicate Tallied(monthly: map<string, MonthBucket>, order: seq<string>, prefix: seq<Application>) {
    && order == DistinctKeys(prefix, MonthKey)
    && (forall k :: k in monthly <==> k in order)
    && (forall k :: k in monthly ==> monthly[k] == BucketFor(prefix, k))
  }

  /** One iteration of the forEach: create the month's bucket if missing,
      then count the application and, if approved, its approval. */
  method TallyOne(monthly: map<string, MonthBucket>, order: seq<string>, prefix: seq<Application>, app: Application)
      returns (monthly': map<string, MonthBucket>, order': seq<string>)
    requires Tallied(monthly, order, prefix)
    ensures Tallied(monthly', order', prefix + [app])
  {
    var key := app.monthKey;
    DistinctKeysSnoc(prefix, app, MonthKey);
    monthly', order' := monthly, order;
    if key !in monthly' {
      assert key !in DistinctKeys(prefix, MonthKey);
      assert forall i :: 0 <= i < |prefix| ==> KeyOf(prefix[i], MonthKey) != key;
      KeyedTotalAbsent(prefix, MonthKey, key, Unit);
      KeyedTotalAbsent(prefix, MonthKey, key, ApprovedUnit);
      monthly' := monthly'[key := MonthBucket(0, 0, key)];
      order' := order' + [key];
    }
    var bucket := monthly'[key];
    bucket := bucket.(applications := bucket.applications + 1);
    if ApprovedLike(app) {
      bucket := bucket.(approved := bucket.approved + 1);
    }
    monthly' := monthly'[key := bucket];
    assert order' == DistinctKeys(prefix + [app], MonthKey);
    assert forall k :: k in monthly' <==> k in order';
    forall k | k in monthly'
      ensures monthly'[k] == BucketFor(prefix + [app], k)
    {
      BucketSnoc(prefix, app, k);
    }
  }

  /** getMonthlyData: fills a dictionary from month key to bucket, one
      application at a time, then sorts its values by month. */
  method GetMonthlyData(apps: seq<Application>) returns (result: seq<MonthBucket>)
    ensures result == MonthlyData(apps)
  {
    if |apps| == 0 {
      return [];
    }
    var monthly: map<string, MonthBucket> := map[];
    var order: seq<string> := [];
    for i := 0 to |apps|
      invariant Tallied(monthly, order, apps[..i])
    {
      assert apps[..i + 1] == apps[..i] + [apps[i]];
      monthly, order := TallyOne(monthly, order, apps[..i], apps[i]);
    }
    assert apps[..|apps|] == apps;
    var values := seq(|order|, j requires 0 <= j < |order| => monthly[order[j]]);
    assert values == BucketsOf(apps, order);
    result := SortByMonth(values);
  }

  function SumApplications(bs: seq<MonthBucket>): int {
    if bs == [] then 0 else bs[0].applications + SumApplications(bs[1..])
  }

  lemma {:induction false} SumApplicationsInsert(s: seq<MonthBucket>, b: MonthBucket)
    ensures SumApplications(InsertByMonth(s, b)) == SumApplications(s) + b.applications
  {
    if s != [] && !LexLeq(b.month, s[0].month) {
      LexLeqTotal(b.month, s[0].month);
      SumApplicationsInsert(s[1..], b);
      assert InsertByMonth(s, b)[1..] == InsertByMonth(s[1..], b);
    }
  }

  lemma {:induction false} SumApplicationsSort(s: seq<MonthBucket>)
    ensures SumApplications(SortByMonth(s)) == SumApplications(s)
  {
    if s != [] {
      var init, last := s[..|s| - 1], s[|s| - 1];
      assert s == init + [last];
      assert SortByMonth(s) == InsertByMonth(SortByMonth(init), last);
      SumApplicationsInsert(SortByMonth(init), last);
      SumApplicationsSort(init);
      SumApplicationsSnoc(init, last);
    }
  }

  lemma {:induction false} SumApplicationsSnoc(s: seq<MonthBucket>, b: MonthBucket)
    ensures SumApplications(s + [b]) == SumApplications(s) + b.applications
  {
    if s != [] {
      assert (s + [b])[1..] == s[1..] + [b];
      SumApplicationsSnoc(s[1..], b);
    }
  }

  lemma {:induction false} SumApplicationsBuckets(apps: seq<Application>, ks: seq<string>)
    ensures SumApplications(BucketsOf(apps, ks)) == SumKeyed(apps, MonthKey, ks, Unit)
  {
    if ks != [] {
      SumApplicationsBuckets(apps, ks[1..]);
      assert BucketsOf(apps, ks)[1..] == BucketsOf(apps, ks[1..]);
    }
  }

  /** The monthly chart: empty exactly for no applications; otherwise sorted
      by month, with every application counted in exactly one bucket, every
      bucket holding its month's counts and approved never above applications. */
  lemma MonthlyDataProperties(apps: seq<Application>)
    ensures MonthlyData(apps) == [] <==> apps == []
    ensures SortedByMonth(MonthlyData(apps))
    ensures SumApplications(MonthlyData(apps)) == |apps|
    ensures forall b :: b in MonthlyData(apps) ==>
      b == BucketFor(apps, b.month) && 0 <= b.approved <= b.applications
    ensures forall i :: 0 <= i < |apps| ==> exists b :: b in MonthlyData(apps) && b.month == apps[i].monthKey
  {
    TotalUnitIsLength(apps);
    if apps != [] {
      var ks := DistinctKeys(apps, MonthKey);
      var bs := BucketsOf(apps, ks);
      var r := SortByMonth(bs);
      SortIsSorted(bs);
      assert KeyOf(apps[0], MonthKey) in ks;
      assert |r| == |bs| by { assert |multiset(r)| == |multiset(bs)|; }
      GroupTotalsAddUp(apps, MonthKey, ks, Unit);
      SumApplicationsBuckets(apps, ks);
      SumApplicationsSort(bs);
      forall b | b in r ensures b == BucketFor(apps, b.month) && 0 <= b.approved <= b.applications {
        assert b in multiset(bs);
        ApprovedAtMostCount(apps, MonthKey, b.month);
      }
      forall i | 0 <= i < |apps| ensures exists b :: b in r && b.month == apps[i].monthKey {
        var k := KeyOf(apps[i], MonthKey);
        var j :| 0 <= j < |ks| && ks[j] == k;
        assert bs[j] in multiset(r);
      }
    }
  }

  // ---------------------------------------------------------------- purpose data

  datatype PurposeAmount = PurposeAmount(purpose: string, amount: int)

  /** getPurposeData: one entry per distinct purpose, in first-appearance
      order, with the sum of that purpose's loan amounts. */
  function PurposeData(apps: seq<Application>): (r: seq<PurposeAmount>)
    ensures |r| == |DistinctKeys(apps, PurposeKey)|
    ensures forall i :: 0 <= i < |r| ==> r[i].purpose == DistinctKeys(apps, PurposeKey)[i]
    ensures forall i, j :: 0 <= i < j < |r| ==> r[i].purpose != r[j].purpose
    ensures forall i :: 0 <= i < |r| ==> r[i].amount == KeyedTotal(apps, PurposeKey, r[i].purpose, Amount)
  {
    var ks := DistinctKeys(apps, PurposeKey);
    seq(|ks|, i requires 0 <= i < |ks| => PurposeAmount(ks[i], KeyedTotal(apps, PurposeKey, ks[i], Amount)))
  }

  function SumAmounts(es: seq<PurposeAmount>): int {
    if es == [] then 0 else es[0].amount + SumAmounts(es[1..])
  }

  lemma {:induction false} SumAmountsKeyed(apps: seq<Application>, ks: seq<string>, es: seq<PurposeAmount>)
    requires |es| == |ks|
    requires forall i :: 0 <= i < |es| ==> es[i].amount == KeyedTotal(apps, PurposeKey, ks[i], Amount)
    ensures SumAmounts(es) == SumKeyed(apps, PurposeKey, ks, Amount)
  {
    if es != [] {
      SumAmountsKeyed(apps, ks[1..], es[1..]);
    }
  }

  /** The purpose sums add up to the sum of all loan amounts. */
  lemma PurposeDataTotal(apps: seq<Application>)
    ensures SumAmounts(PurposeData(apps)) == Total(apps, Amount)
  {
    var ks := DistinctKeys(apps, PurposeKey);
    var r := PurposeData(apps);
    assert forall i :: 0 <= i < |r| ==> r[i].purpose == ks[i];
    SumAmountsKeyed(apps, ks, r);
    forall i | 0 <= i < |apps| ensures KeyOf(apps[i], PurposeKey) in ks { }
    GroupTotalsAddUp(apps, PurposeKey, ks, Amount);
  }

  // ---------------------------------------------------------------- filtering

  /** `field?.toLowerCase().includes(query.toLowerCase())`: a missing field never matches. */
  predicate FieldMatches(field: Option<string>, query: string) {
    field.Some? && Contains(ToLower(field.value), ToLower(query))
  }

  predicate MatchesSearch(a: Application, query: string) {
    FieldMatches(a.name, query) || FieldMatches(a.purpose, query)
  }

  predicate MatchesStatus(a: Application, statusFilter: string) {
    statusFilter == "ALL" || a.status == statusFilter
  }

  /** filteredApplications */
  function FilteredApplications(apps: seq<Application>, query: string, statusFilter: string): (r: seq<Application>)
    ensures |r| <= |apps|
    ensures forall a :: a in r ==> a in apps && MatchesSearch(a, query) && MatchesStatus(a, statusFilter)
    ensures forall a :: a in apps && MatchesSearch(a, query) && MatchesStatus(a, statusFilter) ==> a in r
  {
    if apps == [] then []
    else
      var rest := FilteredApplications(apps[1..], query, statusFilter);
      assert forall a :: a in apps[1..] ==> a in apps;
      assert forall a :: a in apps ==> a == apps[0] || a in apps[1..];
      if MatchesSearch(apps[0], query) && MatchesStatus(apps[0], statusFilter) then [apps[0]] + rest else rest
  }

  /** Filtering works element by element, so it keeps the input order. */
  lemma {:induction false} FilterDistributes(xs: seq<Application>, ys: seq<Application>, query: string, statusFilter: string)
    ensures FilteredApplications(xs + ys, query, statusFilter)
      == FilteredApplications(xs, query, statusFilter) + FilteredApplications(ys, query, statusFilter)
  {
    if xs == [] {
      assert xs + ys == ys;
    } else {
      assert (xs + ys)[0] == xs[0];
      assert (xs + ys)[1..] == xs[1..] + ys;
      FilterDistributes(xs[1..], ys, query, statusFilter);
    }
  }

  /** The search ignores the letter case of the query. */
  lemma SearchIgnoresCase(apps: seq<Application>, query: string, statusFilter: string)
    ensures FilteredApplications(apps, ToUpper(query), statusFilter) == FilteredApplications(apps, query, statusFilter)
  {
    LowerOfUpper(query);
    assert forall a :: MatchesSearch(a, ToUpper(query)) == MatchesSearch(a, query);
    ApplicationsEquallyFiltered(apps, ToUpper(query), query, statusFilter);
  }

  lemma {:induction false} ApplicationsEquallyFiltered(apps: seq<Application>, q1: string, q2: string, statusFilter: string)
    requires forall a :: MatchesSearch(a, q1) == MatchesSearch(a, q2)
    ensures FilteredApplications(apps, q1, statusFilter) == FilteredApplications(apps, q2, statusFilter)
  {
    if apps != [] {
      ApplicationsEquallyFiltered(apps[1..], q1, q2, statusFilter);
    }
  }

  /** The empty query matches an application exactly when it has a name
      or a purpose to search in. */
  lemma EmptyQueryMatches(a: Application)
    ensures MatchesSearch(a, "") <==> a.name.Some? || a.purpose.Some?
  {
    if a.name.Some? { ContainsEmpty(ToLower(a.name.value)); }
    if a.purpose.Some? { ContainsEmpty(ToLower(a.purpose.value)); }
  }

  /** With an empty query and the "ALL" filter, an application is dropped
      exactly when it has neither a name nor a purpose. */
  lemma {:induction false} EmptyQueryKeepsNamed(apps: seq<Application>)
    ensures forall a :: a in apps ==> (a in FilteredApplications(apps, "", "ALL") <==> a.name.Some? || a.purpose.Some?)
    ensures (forall i :: 0 <= i < |apps| ==> apps[i].name.Some?) ==> FilteredApplications(apps, "", "ALL") == apps
  {
    forall a | a in apps
      ensures a in FilteredApplications(apps, "", "ALL") <==> a.name.Some? || a.purpose.Some?
    {
      EmptyQueryMatches(a);
    }
    if apps != [] && forall i :: 0 <= i < |apps| ==> apps[i].name.Some? {
      var rest := apps[1..];
      forall i | 0 <= i < |rest| ensures rest[i].name.Some? {
        assert rest[i] == apps[i + 1];
      }
      EmptyQueryKeepsNamed(rest);
      EmptyQueryMatches(apps[0]);
    }
  }

  // ---------------------------------------------------------------- documents

  /** A document in the admin's document dialog. */
  datatype Document = Document(id: Option<int>, documentId: Option<int>, applicationId: Option<int>, isVerified: bool)

  predicate Targets(d: Document, id: int) {
    d.id == Some(id) || d.documentId == Some(id)
  }

  /** The local update after a verification: the documents whose id or
      documentId is the target become verified, nothing else changes. */
  function MarkVerified(docs: seq<Document>, id: int): (r: seq<Document>)
    ensures |r| == |docs|
    ensures forall i :: 0 <= i < |docs| ==> r[i].isVerified == (docs[i].isVerified || Targets(docs[i], id))
    ensures forall i :: 0 <= i < |docs| ==> r[i].(isVerified := docs[i].isVerified) == docs[i]
  {
    seq(|docs|, i requires 0 <= i < |docs| => if Targets(docs[i], id) then docs[i].(isVerified := true) else docs[i])
  }

  /** Verifying twice changes nothing more than verifying once. */
  lemma MarkVerifiedIdempotent(docs: seq<Document>, id: int)
    ensures MarkVerified(MarkVerified(docs, id), id) == MarkVerified(docs, id)
  {
    var once := MarkVerified(docs, id);
    forall i | 0 <= i < |docs| ensures MarkVerified(once, id)[i] == once[i] {
      assert Targets(once[i], id) == Targets(docs[i], id);
    }
  }

  /** A server call's outcome: success, or failure with the error's message if any. */
  datatype ServerReply = Succeeded | Failed(message: Option<string>)

  datatype VerifyOutcome = InvalidDocumentId | VerifyFailed(toast: string) | Refetch(applicationId: int) | UpdatedLocally

  /** The document dialog's state: the documents on show. */
  class DocumentPanel {
    var docs: seq<Document>

    constructor (initial: seq<Document>)
      ensures docs == initial
    {
      docs := initial;
    }

    /** handleVerify: a missing or zero id is rejected before any request;
        a failed request leaves the list alone; a successful one refetches
        when the first document names its application, and otherwise
        marks the target documents verified in place. */
    method HandleVerify(documentId: Option<int>, reply: ServerReply) returns (outcome: VerifyOutcome)
      modifies this
      ensures !TruthyNumber(documentId) ==> outcome == InvalidDocumentId && docs == old(docs)
      ensures TruthyNumber(documentId) && reply.Failed? ==>
        outcome == VerifyFailed(OrElse(reply.message, "Failed to verify document")) && docs == old(docs)
      ensures TruthyNumber(documentId) && reply.Succeeded? && |old(docs)| > 0 && TruthyNumber(old(docs)[0].applicationId) ==>
        outcome == Refetch(old(docs)[0].applicationId.value) && docs == old(docs)
      ensures TruthyNumber(documentId) && reply.Succeeded? && !(|old(docs)| > 0 && TruthyNumber(old(docs)[0].applicationId)) ==>
        outcome == UpdatedLocally && docs == MarkVerified(old(docs), documentId.value)
    {
      if !TruthyNumber(documentId) {
        return InvalidDocumentId;
      }
      if reply.Failed? {
        return VerifyFailed(OrElse(reply.message, "Failed to verify document"));
      }
      if |docs| > 0 && TruthyNumber(docs[0].applicationId) {
        return Refetch(docs[0].applicationId.value);
      }
      docs := MarkVerified(docs, documentId.value);
      outcome := UpdatedLocally;
    }
  }

  // ---------------------------------------------------------------- disbursement

  /** `applications.find(app => app.applicationId === id)`: the first match. */
  function FindApplication(apps: seq<Application>, id: int): (r: Option<nat>)
    ensures r.Some? ==> r.value < |apps| && apps[r.value].applicationId == id
    ensures r.Some? ==> forall j :: 0 <= j < r.value ==> apps[j].applicationId != id
    ensures r.None? ==> forall j :: 0 <= j < |apps| ==> apps[j].applicationId != id
  {
    if apps == [] then None
    else if apps[0].applicationId == id then Some(0)
    else
      var r := FindApplication(apps[1..], id);
      if r.Some? then Some(r.value + 1) else None
  }

  datatype DisburseOutcome =
    | DisburseRefused(toast: string)
    | DisburseRequest(applicationId: int, amount: int)

  const NotApprovedMessage := "Loan application must be approved before disbursement"
  const DisburseFailedMessage := "Disbursement failed"

  /** Position `k` holds the first application with that id. */
  predicate FirstWithId(apps: seq<Application>, id: int, k: int) {
    0 <= k < |apps| && apps[k].applicationId == id && forall j :: 0 <= j < k ==> apps[j].applicationId != id
  }

  /** The guard of handleDisburse, decided by the first application with
      the id: none fails (reading the status of the missing application
      throws); an APPROVED one is sent with its amount; any other status is
      refused. */
  function DisburseDecision(apps: seq<Application>, id: int): (o: DisburseOutcome)
    ensures (forall j :: 0 <= j < |apps| ==> apps[j].applicationId != id) ==> o == DisburseRefused(DisburseFailedMessage)
    ensures forall k :: FirstWithId(apps, id, k) ==>
      if apps[k].status == "APPROVED" then o == DisburseRequest(id, apps[k].loanAmount)
      else o == DisburseRefused(NotApprovedMessage)
    ensures o.DisburseRequest? ==>
      && o.applicationId == id
      && exists j :: 0 <= j < |apps| && apps[j].applicationId == id && apps[j].status == "APPROVED" && apps[j].loanAmount == o.amount
  {
    var found := FindApplication(apps, id);
    if found.None? then DisburseRefused(DisburseFailedMessage)
    else
      FirstWithIdUnique(apps, id, found.value);
      if apps[found.value].status != "APPROVED" then DisburseRefused(NotApprovedMessage)
      else DisburseRequest(id, apps[found.value].loanAmount)
  }

  /** There is only one first application with a given id. */
  lemma FirstWithIdUnique(apps: seq<Application>, id: int, k: int)
    requires FirstWithId(apps, id, k)
    ensures forall m :: FirstWithId(apps, id, m) ==> m == k
  {
  }

  /** With the ids distinct, an APPROVED application is always sent with its
      amount and any other is refused. */
  lemma DisburseByStatus(apps: seq<Application>, k: int)
    requires 0 <= k < |apps|
    requires forall i, j :: 0 <= i < j < |apps| ==> apps[i].applicationId != apps[j].applicationId
    ensures apps[k].status == "APPROVED" ==>
      DisburseDecision(apps, apps[k].applicationId) == DisburseRequest(apps[k].applicationId, apps[k].loanAmount)
    ensures apps[k].status != "APPROVED" ==>
      DisburseDecision(apps, apps[k].applicationId) == DisburseRefused(NotApprovedMessage)
  {
    assert FirstWithId(apps, apps[k].applicationId, k);
  }

  /** The toast after the disbursement request. */
  function DisburseToast(reply: ServerReply): (t: string)
    ensures reply.Succeeded? ==> t == "Loan disbursed!"
    ensures reply.Failed? && Truthy(reply.message) ==> t == reply.message.value
    ensures reply.Failed? && !Truthy(reply.message) ==> t == DisburseFailedMessage
  {
    if reply.Succeeded? then "Loan disbursed!" else OrElse(reply.message, DisburseFailedMessage)
  }
}
