/** The figures the charts section derives from the dashboard's data: the
    status totals and approval rate, the approved loan amount and its
    average, the top three purposes and the fallback monthly series. */
module Charts {
  import opened JsText
  import opened Dashboard

  /** `Math.round(n / d)` for exact rational n / d with d > 0: the integer
      nearest to n / d, halves rounded up. */
  function RoundDiv(n: int, d: int): (r: int)
    requires d > 0
    ensures d * (2 * r - 1) <= 2 * n < d * (2 * r + 1)
  {
    var m := 2 * n + d;
    var q := m / (2 * d);
    assert m == 2 * d * q + m % (2 * d);
    q
  }

  lemma RoundDivMonotone(n1: int, n2: int, d: int)
    requires d > 0 && n1 <= n2
    ensures RoundDiv(n1, d) <= RoundDiv(n2, d)
  {
    var r1 := RoundDiv(n1, d);
    var r2 := RoundDiv(n2, d);
    if r1 > r2 {
      assert d * (2 * r1 - 1) >= d * (2 * r2 + 1) by {
        assert 2 * r1 - 1 >= 2 * r2 + 1;
        MulMonotone(d, 2 * r2 + 1, 2 * r1 - 1);
      }
    }
  }

  lemma MulMonotone(d: int, a: int, b: int)
    requires d > 0 && a <= b
    ensures d * a <= d * b
  {
  }

  /** An exact multiple rounds to itself. */
  lemma RoundDivExact(k: int, d: int)
    requires d > 0
    ensures RoundDiv(k * d, d) == k
  {
    var r := RoundDiv(k * d, d);
    if r > k {
      MulMonotone(d, 2 * k + 1, 2 * r - 1);
    } else if r < k {
      MulMonotone(d, 2 * r + 1, 2 * k - 1);
    }
  }

  // ---------------------------------------------------------------- status totals

  /** `statusData.find(s => s.name === name)?.value || 0` */
  function ValueOf(statusData: seq<StatusEntry>, name: string): (v: int)
    ensures (forall i :: 0 <= i < |statusData| ==> statusData[i].name != name) ==> v == 0
    ensures v != 0 ==> exists i :: 0 <= i < |statusData| && statusData[i].name == name && statusData[i].value == v
  {
    if statusData == [] then 0
    else if statusData[0].name == name then statusData[0].value
    else ValueOf(statusData[1..], name)
  }

  /** `total`: the sum of the slices. */
  function TotalOf(statusData: seq<StatusEntry>): int {
    SumValues(statusData)
  }

  /** `totalApproved`: approved-but-not-disbursed plus disbursed. */
  function TotalApproved(statusData: seq<StatusEntry>): int {
    ValueOf(statusData, "Approved") + ValueOf(statusData, "Disbursed")
  }

  /** `Math.round(n / d)` for any non-zero d. */
  function RoundQuotient(n: int, d: int): int
    requires d != 0
  {
    if d > 0 then RoundDiv(n, d) else RoundDiv(-n, -d)
  }

  /** A share of a positive whole, as a rounded percentage, lies in [0, 100]. */
  lemma PercentWithin(part: int, whole: int)
    requires 0 <= part <= whole && whole > 0
    ensures 0 <= RoundQuotient(100 * part, whole) <= 100
  {
    RoundDivMonotone(0, 100 * part, whole);
    RoundDivMonotone(100 * part, 100 * whole, whole);
    RoundDivExact(0, whole);
    RoundDivExact(100, whole);
  }

  /** `approvalRate`: 0 without applications, else the rounded percentage. */
  function ApprovalRate(total: int, totalApproved: int): (r: int)
    ensures total == 0 ==> r == 0
  {
    if total == 0 then 0 else RoundQuotient(100 * totalApproved, total)
  }

  /** The approval rate is a percentage, and 100 when everything is approved. */
  lemma ApprovalRateWithin(total: int, totalApproved: int)
    requires 0 <= totalApproved <= total
    ensures 0 <= ApprovalRate(total, totalApproved) <= 100
    ensures total > 0 && totalApproved == total ==> ApprovalRate(total, totalApproved) == 100
  {
    if total > 0 {
      PercentWithin(totalApproved, total);
      RoundDivExact(100, total);
    }
  }

  lemma {:induction false} ValueOfFound(r: seq<StatusEntry>, i: nat)
    requires i < |r|
    requires forall j :: 0 <= j < i ==> r[j].name != r[i].name
    ensures ValueOf(r, r[i].name) == r[i].value
  {
    if i > 0 {
      ValueOfFound(r[1..], i - 1);
    }
  }

  lemma LabelRankOfLabel(m: nat)
    requires m < 4
    ensures LabelRank(ChartLabels[m]) == m
  {
    if m == 0 {
      assert ChartLabels[m] == "Pending";
    } else if m == 1 {
      assert ChartLabels[m] == "Approved";
    } else if m == 2 {
      assert ChartLabels[m] == "Rejected";
    } else {
      assert ChartLabels[m] == "Disbursed";
    }
  }

  /** The slice the charts look up by label carries that status's count. */
  lemma ValueOfStatus(apps: seq<Application>, m: nat)
    requires m < 4
    ensures ValueOf(StatusData(apps), ChartLabels[m]) == CountOf(apps, ChartStatuses[m])
  {
    var r := StatusData(apps);
    var name := ChartLabels[m];
    LabelRankOfLabel(m);
    CountAtMostLength(apps, StatusKey, ChartStatuses[m]);
    if CountOf(apps, ChartStatuses[m]) > 0 {
      var i :| 0 <= i < |r| && r[i] == Slice(apps, m);
      ValueOfFound(r, i);
    } else {
      forall i | 0 <= i < |r| ensures r[i].name != name {
        var k := LabelRank(r[i].name);
        assert r[i] == Slice(apps, k);
        assert k != m;
      }
    }
  }

  /** On the dashboard's status data, the two approved slices count the
      APPROVED and DISBURSED applications, and the total counts every
      application with one of the four chart statuses. */
  lemma StatusTotalsCount(apps: seq<Application>)
    ensures TotalApproved(StatusData(apps)) == CountOf(apps, "APPROVED") + CountOf(apps, "DISBURSED")
    ensures (forall i :: 0 <= i < |apps| ==> apps[i].status in ChartStatuses) ==> TotalOf(StatusData(apps)) == |apps|
  {
    ValueOfStatus(apps, 1);
    ValueOfStatus(apps, 3);
    if forall i :: 0 <= i < |apps| ==> apps[i].status in ChartStatuses {
      StatusDataCoversAll(apps);
    }
  }

  // ---------------------------------------------------------------- loan amounts

  /** `approvedApplications`: the APPROVED and DISBURSED applications, in order. */
  function ApprovedApplications(apps: seq<Application>): (r: seq<Application>)
    ensures |r| <= |apps|
    ensures forall a :: a in r <==> a in apps && ApprovedLike(a)
  {
    if apps == [] then []
    else
      var init := apps[..|apps| - 1];
      var last := apps[|apps| - 1];
      assert apps == init + [last];
      var rest := ApprovedApplications(init);
      if ApprovedLike(last) then rest + [last] else rest
  }

  /** There are as many approved applications as the APPROVED and
      DISBURSED counts say. */
  lemma {:induction false} ApprovedApplicationsCount(apps: seq<Application>)
    ensures |ApprovedApplications(apps)| == CountOf(apps, "APPROVED") + CountOf(apps, "DISBURSED")
  {
    if apps != [] {
      ApprovedApplicationsCount(apps[..|apps| - 1]);
    }
  }

  /** `totalLoanAmount` */
  function TotalLoanAmount(apps: seq<Application>): int {
    Total(ApprovedApplications(apps), Amount)
  }

  /** `averageLoanAmount`: 0 without approved applications, otherwise the
      rounded mean. */
  function AverageLoanAmount(apps: seq<Application>): (r: int)
    ensures |ApprovedApplications(apps)| == 0 ==> r == 0
  {
    var n := |ApprovedApplications(apps)|;
    if n == 0 then 0 else RoundDiv(TotalLoanAmount(apps), n)
  }

  predicate AmountsWithin(apps: seq<Application>, hi: int) {
    forall i :: 0 <= i < |apps| ==> 0 <= apps[i].loanAmount <= hi
  }

  lemma {:induction false} TotalWithin(apps: seq<Application>, hi: int)
    requires AmountsWithin(apps, hi)
    ensures 0 <= Total(apps, Amount) <= |apps| * hi
  {
    if apps != [] {
      var init := apps[..|apps| - 1];
      assert AmountsWithin(init, hi) by {
        forall i | 0 <= i < |init| ensures 0 <= init[i].loanAmount <= hi {
          assert init[i] == apps[i];
        }
      }
      TotalWithin(init, hi);
    }
  }

  /** When approved amounts lie in [0, hi], so does their average. */
  lemma AverageWithin(apps: seq<Application>, hi: int)
    requires hi >= 0 && AmountsWithin(ApprovedApplications(apps), hi)
    ensures 0 <= AverageLoanAmount(apps) <= hi
  {
    var approved := ApprovedApplications(apps);
    var n := |approved|;
    if n > 0 {
      TotalWithin(approved, hi);
      RoundDivMonotone(0, TotalLoanAmount(apps), n);
      RoundDivMonotone(TotalLoanAmount(apps), hi * n, n);
      RoundDivExact(0, n);
      RoundDivExact(hi, n);
    }
  }

  // ---------------------------------------------------------------- top purposes

  /** One row of the top-purposes table; the percentage is absent when the
      division gives NaN or an infinity (total amount 0). */
  datatype TopPurpose = TopPurpose(purpose: string, amount: int, percentage: Option<int>)

  predicate SortedByAmountDesc(s: seq<PurposeAmount>) {
    forall i, j :: 0 <= i < j < |s| ==> s[j].amount <= s[i].amount
  }

  /** Insert x after every entry whose amount is at least its own. */
  function InsertByAmount(s: seq<PurposeAmount>, x: PurposeAmount): (r: seq<PurposeAmount>)
    ensures multiset(r) == multiset(s) + multiset{x}
  {
    if s == [] then [x]
    else if s[0].amount < x.amount then [x] + s
    else
      assert s == [s[0]] + s[1..];
      [s[0]] + InsertByAmount(s[1..], x)
  }

  lemma ConsSorted(h: PurposeAmount, rest: seq<PurposeAmount>)
    requires SortedByAmountDesc(rest)
    requires forall y :: y in rest ==> y.amount <= h.amount
    ensures SortedByAmountDesc([h] + rest)
  {
    var r := [h] + rest;
    forall i, j | 0 <= i < j < |r| ensures r[j].amount <= r[i].amount {
      assert r[j] == rest[j - 1];
      if i > 0 { assert r[i] == rest[i - 1]; }
    }
  }

  lemma {:induction false} InsertByAmountSorted(s: seq<PurposeAmount>, x: PurposeAmount)
    requires SortedByAmountDesc(s)
    ensures SortedByAmountDesc(InsertByAmount(s, x))
  {
    if s == [] {
    } else if s[0].amount < x.amount {
      forall y | y in s ensures y.amount <= x.amount {
        var j :| 0 <= j < |s| && s[j] == y;
      }
      ConsSorted(x, s);
    } else {
      var rest := InsertByAmount(s[1..], x);
      InsertByAmountSorted(s[1..], x);
      forall y | y in rest ensures y.amount <= s[0].amount {
        assert y in multiset(rest);
        if y != x {
          assert y in multiset(s[1..]);
          var j :| 0 <= j < |s[1..]| && s[1..][j] == y;
          assert s[j + 1] == y;
        }
      }
      ConsSorted(s[0], rest);
    }
  }

  /** `.sort((a, b) => b.amount - a.amount)`: a stable sort, largest first. */
  function SortByAmountDesc(s: seq<PurposeAmount>): (r: seq<PurposeAmount>)
    ensures multiset(r) == multiset(s)
  {
    if s == [] then []
    else
      assert s == s[..|s| - 1] + [s[|s| - 1]];
      InsertByAmount(SortByAmountDesc(s[..|s| - 1]), s[|s| - 1])
  }

  lemma {:induction false} SortByAmountDescSorted(s: seq<PurposeAmount>)
    ensures SortedByAmountDesc(SortByAmountDesc(s))
  {
    if s != [] {
      SortByAmountDescSorted(s[..|s| - 1]);
      InsertByAmountSorted(SortByAmountDesc(s[..|s| - 1]), s[|s| - 1]);
    }
  }

  /** `Math.round(amount / total * 100)`, absent for a zero total. */
  function Percentage(amount: int, total: int): Option<int> {
    if total == 0 then None else Some(RoundQuotient(100 * amount, total))
  }

  /** The purposes of the approved applications, largest sum first. */
  function RankedPurposes(apps: seq<Application>): seq<PurposeAmount> {
    SortByAmountDesc(PurposeData(ApprovedApplications(apps)))
  }

  /** `topPurposes`: the first three ranked purposes with their share of
      the total approved amount. */
  function TopPurposes(apps: seq<Application>): (r: seq<TopPurpose>)
    ensures |r| <= 3
    ensures |r| == if |RankedPurposes(apps)| < 3 then |RankedPurposes(apps)| else 3
    ensures forall i :: 0 <= i < |r| ==>
      r[i].purpose == RankedPurposes(apps)[i].purpose && r[i].amount == RankedPurposes(apps)[i].amount
    ensures forall i :: 0 <= i < |r| ==> r[i].percentage == Percentage(r[i].amount, TotalLoanAmount(apps))
  {
    var ranked := RankedPurposes(apps);
    var top := if |ranked| < 3 then ranked else ranked[..3];
    var total := TotalLoanAmount(apps);
    seq(|top|, i requires 0 <= i < |top| => TopPurpose(top[i].purpose, top[i].amount, Percentage(top[i].amount, total)))
  }

  lemma {:induction false} EntryAtMostSum(es: seq<PurposeAmount>, x: PurposeAmount)
    requires forall i :: 0 <= i < |es| ==> es[i].amount >= 0
    requires x in es
    ensures x.amount <= SumAmounts(es)
  {
    SumAmountsNonNegative(es[1..]);
    if x != es[0] {
      EntryAtMostSum(es[1..], x);
    }
  }

  lemma {:induction false} SumAmountsNonNegative(es: seq<PurposeAmount>)
    requires forall i :: 0 <= i < |es| ==> es[i].amount >= 0
    ensures SumAmounts(es) >= 0
  {
    if es != [] {
      SumAmountsNonNegative(es[1..]);
    }
  }

  /** The top purposes are ordered by amount, no purpose left out has a
      larger amount than one shown, and with non-negative amounts and a
      positive total every share is a percentage between 0 and 100. */
  lemma TopPurposesProperties(apps: seq<Application>)
    ensures forall i, j :: 0 <= i < j < |TopPurposes(apps)| ==> TopPurposes(apps)[j].amount <= TopPurposes(apps)[i].amount
    ensures forall i, j :: 0 <= i < |TopPurposes(apps)| <= j < |RankedPurposes(apps)| ==>
      RankedPurposes(apps)[j].amount <= TopPurposes(apps)[i].amount
    ensures (forall i :: 0 <= i < |apps| ==> apps[i].loanAmount >= 0) && TotalLoanAmount(apps) > 0 ==>
      forall i :: 0 <= i < |TopPurposes(apps)| ==>
        TopPurposes(apps)[i].percentage.Some? && 0 <= TopPurposes(apps)[i].percentage.value <= 100
  {
    var approved := ApprovedApplications(apps);
    var data := PurposeData(approved);
    var ranked := RankedPurposes(apps);
    var top := TopPurposes(apps);
    var total := TotalLoanAmount(apps);
    SortByAmountDescSorted(data);
    if (forall i :: 0 <= i < |apps| ==> apps[i].loanAmount >= 0) && total > 0 {
      assert forall i :: 0 <= i < |approved| ==> approved[i].loanAmount >= 0 by {
        forall i | 0 <= i < |approved| ensures approved[i].loanAmount >= 0 {
          assert approved[i] in apps;
        }
      }
      PurposeDataTotal(approved);
      NonNegativePurposeAmounts(approved);
      forall i | 0 <= i < |top| ensures top[i].percentage.Some? && 0 <= top[i].percentage.value <= 100 {
        var x := ranked[i];
        assert x in multiset(data);
        EntryAtMostSum(data, x);
        PercentWithin(x.amount, total);
      }
    }
  }

  lemma NonNegativePurposeAmounts(apps: seq<Application>)
    requires forall i :: 0 <= i < |apps| ==> apps[i].loanAmount >= 0
    ensures forall i :: 0 <= i < |PurposeData(apps)| ==> PurposeData(apps)[i].amount >= 0
  {
    forall k: string ensures KeyedTotal(apps, PurposeKey, k, Amount) >= 0 {
      KeyedAmountNonNegative(apps, k);
    }
  }

  lemma {:induction false} KeyedAmountNonNegative(apps: seq<Application>, k: string)
    requires forall i :: 0 <= i < |apps| ==> apps[i].loanAmount >= 0
    ensures KeyedTotal(apps, PurposeKey, k, Amount) >= 0
  {
    if apps != [] {
      var init := apps[..|apps| - 1];
      assert forall i :: 0 <= i < |init| ==> init[i] == apps[i];
      KeyedAmountNonNegative(init, k);
    }
  }

  // ---------------------------------------------------------------- monthly fallback

  /** The placeholder series shown when there is no monthly data. */
  const FallbackMonthly: seq<MonthBucket> := [
    MonthBucket(0, 0, "2025-01"), MonthBucket(0, 0, "2025-02"), MonthBucket(0, 0, "2025-03"),
    MonthBucket(0, 0, "2025-04"), MonthBucket(0, 0, "2025-05")]

  /** `fallbackMonthlyData` */
  function ChartMonthly(monthly: seq<MonthBucket>): (r: seq<MonthBucket>)
    ensures r != []
    ensures monthly != [] ==> r == monthly
  {
    if monthly == [] then FallbackMonthly else monthly
  }

  /** The chart shows the real buckets whenever there are applications and
      the five empty months otherwise. */
  lemma ChartMonthlyOfApplications(apps: seq<Application>)
    ensures apps != [] ==> ChartMonthly(MonthlyData(apps)) == MonthlyData(apps)
    ensures apps == [] ==> ChartMonthly(MonthlyData(apps)) == FallbackMonthly
    ensures forall b :: b in FallbackMonthly ==> b.applications == 0 && b.approved == 0
  {
    MonthlyDataProperties(apps);
  }
}
