/** The records behind the sender's and the receiver's "shipments per month" charts: one
    entry of 1 per record, in the month of its `createdAt` (src/features/sender/MonthlyRecapTab.jsx:104-122,
    src/features/receiver/ReceiverRecapTab.jsx:71-94). */
module Charts {
  import opened Wrappers
  import opened Seqs
  import opened Months
  import opened Shipments

  /** The calendar month of an optional date. */
  function MonthOf(t: Option<Instant>): (r: Option<YearMonth>)
    ensures r.Some? <==> t.Some?
    ensures t.Some? ==> r.value == t.value.month
  {
    if t.Some? then Some(t.value.month) else None
  }

  /** The record was created in month `m`. */
  predicate CreatedIn(s: Shipment, m: YearMonth) {
    s.createdAt.Some? && s.createdAt.value.month == m
  }

  /** The number of records created in month `m`. */
  function CreatedCount(all: seq<Shipment>, m: YearMonth): nat {
    |Filter(all, (s: Shipment) => CreatedIn(s, m))|
  }

  /** One entry of 1 per record, in the month of its `createdAt` (in none without one):
      a month's bucket then counts exactly the records created in that month. */
  function CreationEntries(all: seq<Shipment>): (es: seq<Entry>)
    ensures |es| == |all|
    ensures forall i :: 0 <= i < |es| ==> es[i].amount == 1
    ensures forall m :: AmountIn(es, m) == CreatedCount(all, m)
  {
    if all == [] then []
    else
      var init := all[..|all| - 1];
      var last := all[|all| - 1];
      var e := Entry(MonthOf(last.createdAt), 1);
      assert init + [last] == all;
      CreatedCountSnoc(init, last);
      AmountInSnoc(CreationEntries(init), e);
      CreationEntries(init) + [e]
  }

  /** One more record adds one to the count of the month it was created in, if any. */
  lemma CreatedCountSnoc(init: seq<Shipment>, last: Shipment)
    ensures forall m ::
      CreatedCount(init + [last], m) == CreatedCount(init, m) + Hit(Entry(MonthOf(last.createdAt), 1), m)
  {
    assert [last][1..] == [];
    forall m
      ensures CreatedCount(init + [last], m) == CreatedCount(init, m) + Hit(Entry(MonthOf(last.createdAt), 1), m)
    {
      FilterConcat(init, [last], (s: Shipment) => CreatedIn(s, m));
    }
  }

  /** The counting chart: twelve months ending at `today`, each bucket the number of
      records created in that month; together they never count more records than there are. */
  method CountByCreatedMonth(today: YearMonth, all: seq<Shipment>) returns (data: seq<int>)
    requires ValidMonth(today)
    ensures |data| == 12
    ensures forall i :: 0 <= i < 12 ==> data[i] == CreatedCount(all, Window(today)[i])
    ensures 0 <= Total(data) <= |all|
  {
    data := FillMonths(today, CreationEntries(all));
    CountsAtMost(CreationEntries(all), Window(today));
  }

  /** The status doughnut both recap tabs draw: ongoing, completed, archived, in that
      order, so the slices add up to the three counts together. */
  function Doughnut(ongoing: int, completed: int, archived: int): (r: seq<int>)
    ensures |r| == 3
    ensures r[0] == ongoing && r[1] == completed && r[2] == archived
    ensures Total(r) == ongoing + completed + archived
  {
    var r := [ongoing, completed, archived];
    assert r[..2] == [ongoing, completed] && [ongoing, completed][..1] == [ongoing] && [ongoing][..0] == [];
    assert Total([ongoing]) == ongoing;
    assert Total([ongoing, completed]) == ongoing + completed;
    r
  }
}
