/** The driver's revenue tab (src/features/driver/RevenueTab.jsx) over the completed and
    archived job lists: revenue totals and average, the monthly earnings chart, the
    paid/pending split and the ten most recent deliveries. Fees are whole amounts read by
    `Shipments.JobFee`. */
module RevenueTab {
  import opened Wrappers
  import opened Seqs
  import opened Months
  import opened Shipments
  import opened Charts

  datatype RevenueStats = RevenueStats(
    totalRevenue: int,
    thisMonthRevenue: int,
    totalDeliveries: nat,
    averagePerDelivery: int)

  /** The job was delivered in month `m`. */
  predicate DeliveredIn(s: Shipment, m: YearMonth) {
    s.deliveredAt.Some? && s.deliveredAt.value.month == m
  }

  /** The fees of the jobs delivered in month `m`. */
  function DeliveredFees(jobs: seq<Shipment>, m: YearMonth): int {
    Sum(Filter(jobs, (s: Shipment) => DeliveredIn(s, m)), JobFee)
  }

  /** `stats`: `now` is the current calendar month. The average is the whole part of the
      quotient. */
  function Stats(completed: seq<Shipment>, archived: seq<Shipment>, now: YearMonth): (r: RevenueStats)
    ensures r.totalRevenue == Sum(completed, JobFee) + Sum(archived, JobFee)
    ensures r.totalDeliveries == |completed| + |archived|
    ensures r.totalDeliveries == 0 ==> r.averagePerDelivery == 0
    ensures r.totalDeliveries > 0 ==>
      r.averagePerDelivery * r.totalDeliveries <= r.totalRevenue < (r.averagePerDelivery + 1) * r.totalDeliveries
    ensures r.thisMonthRevenue == DeliveredFees(completed + archived, now)
  {
    var all := completed + archived;
    SumConcat(completed, archived, JobFee);
    var total := Sum(all, JobFee);
    var n := |all|;
    if n > 0 then
      Quotient(total, n);
      RevenueStats(total, DeliveredFees(all, now), n, total / n)
    else RevenueStats(total, DeliveredFees(all, now), n, 0)
  }

  /** The whole part of a quotient by a positive count. */
  lemma Quotient(total: int, n: int)
    requires n > 0
    ensures (total / n) * n <= total < (total / n + 1) * n
  {
    var q, m := total / n, total % n;
    assert total == q * n + m && 0 <= m < n;
    assert (q + 1) * n == q * n + n;
  }

  /** With no negative fee, this month's revenue is part of the total. */
  lemma ThisMonthAtMostTotal(completed: seq<Shipment>, archived: seq<Shipment>, now: YearMonth)
    requires forall s :: s in completed + archived ==> JobFee(s) >= 0
    ensures 0 <= Stats(completed, archived, now).thisMonthRevenue <= Stats(completed, archived, now).totalRevenue
  {
    var all := completed + archived;
    assert forall i :: 0 <= i < |all| ==> all[i] in all;
    SumFilterAtMost(all, (s: Shipment) => DeliveredIn(s, now), JobFee);
    SumConcat(completed, archived, JobFee);
  }

  // ---- Monthly earnings ---------------------------------------------------------------------

  /** One entry per job: its fee, in the month of its `deliveredAt` (in none without
      one). A month's bucket then holds exactly the fees delivered in it, and the entries
      together carry every fee once. */
  function FeeEntries(jobs: seq<Shipment>): (es: seq<Entry>)
    ensures |es| == |jobs|
    ensures forall i :: 0 <= i < |es| ==> es[i].amount == JobFee(jobs[i])
    ensures forall m :: AmountIn(es, m) == DeliveredFees(jobs, m)
    ensures EntryTotal(es) == Sum(jobs, JobFee)
  {
    if jobs == [] then []
    else
      var init := jobs[..|jobs| - 1];
      var last := jobs[|jobs| - 1];
      var e := Entry(MonthOf(last.deliveredAt), JobFee(last));
      assert init + [last] == jobs;
      DeliveredFeesSnoc(init, last);
      AmountInSnoc(FeeEntries(init), e);
      SumConcat(init, [last], JobFee);
      assert [last][1..] == [];
      FeeEntries(init) + [e]
  }

  /** One more job adds its fee to the month it was delivered in, if any. */
  lemma DeliveredFeesSnoc(init: seq<Shipment>, last: Shipment)
    ensures forall m ::
      DeliveredFees(init + [last], m) == DeliveredFees(init, m) + Hit(Entry(MonthOf(last.deliveredAt), JobFee(last)), m)
  {
    assert [last][1..] == [];
    forall m
      ensures DeliveredFees(init + [last], m) == DeliveredFees(init, m) + Hit(Entry(MonthOf(last.deliveredAt), JobFee(last)), m)
    {
      var p := (s: Shipment) => DeliveredIn(s, m);
      FilterConcat(init, [last], p);
      assert Filter([last], p) == if p(last) then [last] else [];
      SumConcat(Filter(init, p), Filter([last], p), JobFee);
    }
  }

  /** `monthlyChartData`: the fees delivered in each of the last twelve months; the last
      bar is this month's revenue card, and with no negative fee the bars never add up to
      more than the total revenue. */
  method MonthlyEarnings(today: YearMonth, completed: seq<Shipment>, archived: seq<Shipment>) returns (data: seq<int>)
    requires ValidMonth(today)
    ensures |data| == 12
    ensures forall i :: 0 <= i < 12 ==> data[i] == DeliveredFees(completed + archived, Window(today)[i])
    ensures data[11] == Stats(completed, archived, today).thisMonthRevenue
    ensures (forall s :: s in completed + archived ==> JobFee(s) >= 0) ==>
      Total(data) <= Stats(completed, archived, today).totalRevenue
  {
    var all := completed + archived;
    data := FillMonths(today, FeeEntries(all));
    WindowShape(today);
    if forall s :: s in all ==> JobFee(s) >= 0 {
      assert forall i :: 0 <= i < |all| ==> FeeEntries(all)[i].amount >= 0 by {
        assert forall i :: 0 <= i < |all| ==> all[i] in all;
      }
      WindowTotalAtMost(FeeEntries(all), Window(today));
      SumConcat(completed, archived, JobFee);
    }
  }

  // ---- Payment status ----------------------------------------------------------------------

  predicate IsPaid(j: Shipment) {
    j.paymentStatus == "paid"
  }

  /** `!job.paymentStatus || job.paymentStatus === 'pending'`. */
  predicate IsUnpaid(j: Shipment) {
    j.paymentStatus == "" || j.paymentStatus == "pending"
  }

  /** A payment status that is neither absent, `'pending'` nor `'paid'`. */
  predicate OtherPayment(j: Shipment) {
    j.paymentStatus != "paid" && j.paymentStatus != "pending" && j.paymentStatus != ""
  }

  /** `paymentStatusData`: the paid and the pending fee sums. No job is counted in both,
      a job with any other status is counted in neither, and so the two slices together
      are the fees of the jobs in either: with no negative fee, never more than the total. */
  function PaymentSplit(jobs: seq<Shipment>): (r: (int, int))
    ensures r.0 == Sum(Filter(jobs, IsPaid), JobFee) && r.1 == Sum(Filter(jobs, IsUnpaid), JobFee)
    ensures forall j :: j in Filter(jobs, IsPaid) ==> j !in Filter(jobs, IsUnpaid)
    ensures forall j :: j in jobs && OtherPayment(j) ==> j !in Filter(jobs, IsPaid) && j !in Filter(jobs, IsUnpaid)
    ensures r.0 + r.1 == Sum(Filter(jobs, (j: Shipment) => IsPaid(j) || IsUnpaid(j)), JobFee)
    ensures (forall i :: 0 <= i < |jobs| ==> JobFee(jobs[i]) >= 0) ==> r.0 + r.1 <= Sum(jobs, JobFee)
  {
    SumDisjointFilters(jobs, IsPaid, IsUnpaid, (j: Shipment) => IsPaid(j) || IsUnpaid(j), JobFee);
    assert (forall i :: 0 <= i < |jobs| ==> JobFee(jobs[i]) >= 0) ==>
      Sum(Filter(jobs, (j: Shipment) => IsPaid(j) || IsUnpaid(j)), JobFee) <= Sum(jobs, JobFee) by {
      if forall i :: 0 <= i < |jobs| ==> JobFee(jobs[i]) >= 0 {
        SumFilterAtMost(jobs, (j: Shipment) => IsPaid(j) || IsUnpaid(j), JobFee);
      }
    }
    (Sum(Filter(jobs, IsPaid), JobFee), Sum(Filter(jobs, IsUnpaid), JobFee))
  }

  // ---- Recent earnings -----------------------------------------------------------------------

  /** `recentEarnings`: both lists newest delivery first (no date counts as the epoch),
      cut to ten. */
  function RecentEarnings(completed: seq<Shipment>, archived: seq<Shipment>): (r: seq<Shipment>)
    ensures |r| <= 10
    ensures |completed| + |archived| >= 10 ==> |r| == 10
    ensures |completed| + |archived| < 10 ==> |r| == |completed| + |archived|
    ensures NewestFirst(r, DeliveredAt)
    ensures forall x :: x in r ==> x in completed + archived
    ensures multiset(r) <= multiset(completed + archived)
  {
    var sorted := SortNewest(completed + archived, DeliveredAt);
    var r := Take(sorted, 10);
    assert forall i :: 0 <= i < |r| ==> r[i] == sorted[i];
    assert forall x :: x in r ==> x in multiset(sorted);
    assert sorted == r + sorted[|r|..];
    assert multiset(sorted) == multiset(r) + multiset(sorted[|r|..]);
    r
  }

  /** The list holds the most recent deliveries: a job left out is no more recent than any
      job shown. */
  lemma {:induction false} RecentAreNewest(completed: seq<Shipment>, archived: seq<Shipment>)
    ensures forall x, y ::
      (x in completed + archived && x !in RecentEarnings(completed, archived) && y in RecentEarnings(completed, archived))
      ==> SortKey(y, DeliveredAt) >= SortKey(x, DeliveredAt)
  {
    var all := completed + archived;
    var sorted := SortNewest(all, DeliveredAt);
    var r := RecentEarnings(completed, archived);
    assert r == Take(sorted, 10);
    forall x, y | x in all && x !in r && y in r
      ensures SortKey(y, DeliveredAt) >= SortKey(x, DeliveredAt)
    {
      assert x in multiset(sorted);
      var i :| 0 <= i < |sorted| && sorted[i] == x;
      var j :| 0 <= j < |r| && r[j] == y;
      assert r == sorted[..|r|];
      assert sorted[j] == y;
      assert forall k :: 0 <= k < |r| ==> sorted[k] in r;
      assert i >= |r|;
      NewestFirstPairwise(sorted, DeliveredAt, j, i);
    }
  }
}
