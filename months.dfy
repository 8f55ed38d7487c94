/** The twelve-month bar charts of the three recap tabs
    (src/features/sender/MonthlyRecapTab.jsx, src/features/receiver/ReceiverRecapTab.jsx,
    src/features/driver/RevenueTab.jsx): one bucket per calendar month of the last year,
    each entry with a date inside the window adding its amount to its month's bucket. */
module Months {
  import opened Wrappers

  /** A calendar month as `Date` reports it: `getFullYear()` and `getMonth()` (0 is January).
      The `"YYYY-MM"` key the charts build from it is one-to-one, so the model keys on the pair. */
  datatype YearMonth = YearMonth(year: int, month: int)

  predicate ValidMonth(ym: YearMonth) {
    0 <= ym.month < 12
  }

  /** Months counted from year 0, so that consecutive months differ by one. */
  function Ordinal(ym: YearMonth): int {
    ym.year * 12 + ym.month
  }

  /** `new Date(year, month - back, 1)`: `Date` carries a month below 0 into the years before. */
  function MonthsBefore(today: YearMonth, back: int): (r: YearMonth)
    ensures ValidMonth(r)
    ensures Ordinal(r) == Ordinal(today) - back
  {
    var k := Ordinal(today) - back;
    YearMonth(k / 12, k % 12)
  }

  /** The chart's months, oldest first: `back` runs from 11 down to 0. */
  function Window(today: YearMonth): seq<YearMonth> {
    seq(12, i requires 0 <= i < 12 => MonthsBefore(today, 11 - i))
  }

  /** The window holds twelve distinct consecutive months and ends at the current month. */
  lemma WindowShape(today: YearMonth)
    requires ValidMonth(today)
    ensures |Window(today)| == 12
    ensures Window(today)[11] == today
    ensures forall i :: 0 <= i < 12 ==> ValidMonth(Window(today)[i])
    ensures forall i :: 0 < i < 12 ==> Ordinal(Window(today)[i]) == Ordinal(Window(today)[i - 1]) + 1
    ensures Distinct(Window(today))
  {
    var w := Window(today);
    var last := w[11];
    assert Ordinal(last) == Ordinal(today);
    assert last.month == today.month && last.year == today.year;
  }

  predicate Distinct(w: seq<YearMonth>) {
    forall i, j :: 0 <= i < j < |w| ==> w[i] != w[j]
  }

  /** One entry of a chart: the month of its date (absent when the record has no date)
      and what it adds to that month's bucket. */
  datatype Entry = Entry(at: Option<YearMonth>, amount: int)

  /** What entry `e` adds to the bucket of month `m`. */
  function Hit(e: Entry, m: YearMonth): int {
    if e.at == Some(m) then e.amount else 0
  }

  /** The total the entries add to the bucket of month `m`. */
  function AmountIn(es: seq<Entry>, m: YearMonth): int {
    if es == [] then 0 else AmountIn(es[..|es| - 1], m) + Hit(es[|es| - 1], m)
  }

  /** Appending an entry adds its hit to every month's bucket and its amount to the total. */
  lemma AmountInSnoc(es: seq<Entry>, e: Entry)
    ensures forall m :: AmountIn(es + [e], m) == AmountIn(es, m) + Hit(e, m)
    ensures EntryTotal(es + [e]) == EntryTotal(es) + e.amount
  {
    assert (es + [e])[..|es|] == es;
  }

  /** What entry `e` adds to the chart as a whole: its amount when its month is shown. */
  function InWindow(e: Entry, w: seq<YearMonth>): int {
    if e.at.Some? && e.at.value in w then e.amount else 0
  }

  /** The total of the entries whose month is one of `w`. */
  function WindowTotal(es: seq<Entry>, w: seq<YearMonth>): int {
    if es == [] then 0 else WindowTotal(es[..|es| - 1], w) + InWindow(es[|es| - 1], w)
  }

  /** The sum of the buckets of the months `w`. */
  function BucketSum(es: seq<Entry>, w: seq<YearMonth>): int {
    if w == [] then 0 else BucketSum(es, w[..|w| - 1]) + AmountIn(es, w[|w| - 1])
  }

  /** The sum of a chart's data. */
  function Total(data: seq<int>): int {
    if data == [] then 0 else Total(data[..|data| - 1]) + data[|data| - 1]
  }

  /** Across distinct months, one entry hits at most one bucket. */
  lemma {:induction false} HitsAcross(e: Entry, w: seq<YearMonth>)
    requires Distinct(w)
    ensures BucketSum([e], w) == InWindow(e, w)
  {
    if w != [] {
      var init := w[..|w| - 1];
      HitsAcross(e, init);
      assert [e][..0] == [];
      assert AmountIn([e], w[|w| - 1]) == Hit(e, w[|w| - 1]);
      if e.at.Some? && e.at.value == w[|w| - 1] {
        assert e.at.value !in init;
      }
      assert w == init + [w[|w| - 1]];
    }
  }

  /** Adding one more entry adds its bucket hits to every bucket sum. */
  lemma {:induction false} BucketSumSnoc(es: seq<Entry>, e: Entry, w: seq<YearMonth>)
    ensures BucketSum(es + [e], w) == BucketSum(es, w) + BucketSum([e], w)
  {
    if w != [] {
      BucketSumSnoc(es, e, w[..|w| - 1]);
      var m := w[|w| - 1];
      assert (es + [e])[..|es|] == es;
      assert AmountIn(es + [e], m) == AmountIn(es, m) + Hit(e, m);
      assert [e][..0] == [];
      assert AmountIn([e], m) == Hit(e, m);
    }
  }

  /** The buckets of distinct months add up to the total of the entries inside the window. */
  lemma {:induction false} BucketsAddUp(es: seq<Entry>, w: seq<YearMonth>)
    requires Distinct(w)
    ensures BucketSum(es, w) == WindowTotal(es, w)
  {
    if es == [] {
      EmptyBuckets(w);
    } else {
      var init := es[..|es| - 1];
      var e := es[|es| - 1];
      BucketsAddUp(init, w);
      assert init + [e] == es;
      BucketSumSnoc(init, e, w);
      HitsAcross(e, w);
    }
  }

  lemma {:induction false} EmptyBuckets(w: seq<YearMonth>)
    ensures BucketSum([], w) == 0
  {
    if w != [] { EmptyBuckets(w[..|w| - 1]); }
  }

  /** With no negative amount, the chart never shows more than all the entries together. */
  lemma {:induction false} WindowTotalAtMost(es: seq<Entry>, w: seq<YearMonth>)
    requires forall i :: 0 <= i < |es| ==> es[i].amount >= 0
    ensures 0 <= WindowTotal(es, w) <= EntryTotal(es)
  {
    if es != [] {
      WindowTotalAtMost(es[..|es| - 1], w);
    }
  }

  /** The amounts of all entries. */
  function EntryTotal(es: seq<Entry>): int {
    if es == [] then 0 else EntryTotal(es[..|es| - 1]) + es[|es| - 1].amount
  }

  /** Counting charts add 1 per entry: the buckets then hold at most one count per entry. */
  lemma {:induction false} CountsAtMost(es: seq<Entry>, w: seq<YearMonth>)
    requires forall i :: 0 <= i < |es| ==> es[i].amount == 1
    ensures 0 <= WindowTotal(es, w) <= |es|
  {
    if es != [] {
      CountsAtMost(es[..|es| - 1], w);
    }
  }

  /** The two loops of the charts: twelve zero buckets keyed by month, oldest first, then
      one pass over the entries adding each in-window amount to its bucket; the result is
      `Object.values(months)`, in the order the keys were inserted. */
  method FillMonths(today: YearMonth, es: seq<Entry>) returns (data: seq<int>)
    requires ValidMonth(today)
    ensures |data| == 12
    ensures forall i :: 0 <= i < 12 ==> data[i] == AmountIn(es, Window(today)[i])
    ensures Total(data) == WindowTotal(es, Window(today))
  {
    ghost var w := Window(today);
    var months: map<YearMonth, int> := map[];
    var keys: seq<YearMonth> := [];
    var back := 11;
    while back >= 0
      invariant -1 <= back <= 11
      invariant |keys| == 11 - back
      invariant forall t :: 0 <= t < |keys| ==> keys[t] == w[t]
      invariant forall m :: m in months <==> m in keys
      invariant forall m :: m in months ==> months[m] == 0
    {
      var d := MonthsBefore(today, back);
      keys := keys + [d];
      months := months[d := 0];
      back := back - 1;
    }
    assert keys == w;
    for j := 0 to |es|
      invariant forall m :: m in months <==> m in keys
      invariant forall m :: m in months ==> months[m] == AmountIn(es[..j], m)
    {
      var e := es[j];
      assert es[..j + 1][..j] == es[..j];
      if e.at.Some? && e.at.value in months {
        months := months[e.at.value := months[e.at.value] + e.amount];
      }
    }
    assert es[..|es|] == es;
    data := seq(12, i requires 0 <= i < 12 => months[keys[i]]);
    WindowShape(today);
    BucketsAddUp(es, w);
    DataIsBucketSum(data, es, w);
  }

  lemma {:induction false} DataIsBucketSum(data: seq<int>, es: seq<Entry>, w: seq<YearMonth>)
    requires |data| == |w|
    requires forall i :: 0 <= i < |w| ==> data[i] == AmountIn(es, w[i])
    ensures Total(data) == BucketSum(es, w)
  {
    if w != [] {
      DataIsBucketSum(data[..|data| - 1], es, w[..|w| - 1]);
    }
  }
}
