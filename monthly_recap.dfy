/** The sender's recap tab (src/features/sender/MonthlyRecapTab.jsx): the summary cards,
    the doughnut of ongoing, completed and archived records, and the bar chart of records
    created per month. `shipments` is the active list and `archived` the archived one. */
module MonthlyRecap {
  import opened Seqs
  import opened Months
  import opened Shipments
  import opened Charts

  datatype SenderStats = SenderStats(
    totalShipment: nat,
    completedShipments: nat,
    ongoingShipments: nat,
    archivedShipments: nat,
    totalDrivers: nat,
    totalFees: int)

  /** `allShipments.map(s => s.driver?.email).filter(Boolean)`: the non-empty driver
      e-mails, one per record that has one. */
  function DriverEmails(all: seq<Shipment>): (r: seq<string>)
    ensures |r| <= |all|
    ensures forall e :: e in r ==> e != "" && exists s :: s in all && AssignedTo(s, e)
    ensures forall s :: s in all && s.driver.Some? && s.driver.value.email != "" ==> s.driver.value.email in r
  {
    if all == [] then []
    else
      var head := if all[0].driver.Some? && all[0].driver.value.email != "" then [all[0].driver.value.email] else [];
      assert all == [all[0]] + all[1..];
      assert all[0] in all && forall x :: x in all[1..] ==> x in all;
      head + DriverEmails(all[1..])
  }

  /** The distinct non-empty driver e-mails of `all`. */
  ghost function DriverSet(all: seq<Shipment>): set<string> {
    set s | s in all && s.driver.Some? && s.driver.value.email != "" :: s.driver.value.email
  }

  /** `stats`: records from both lists are counted in the total, the drivers and the fees;
      completed (Completed or Received) and ongoing split only the active list. */
  function Stats(shipments: seq<Shipment>, archived: seq<Shipment>): (r: SenderStats)
    ensures r.totalShipment == |shipments| + |archived|
    ensures r.archivedShipments == |archived|
    ensures r.completedShipments == |Filter(shipments, (s: Shipment) => IsClosed(s.status))|
    ensures r.ongoingShipments == |Filter(shipments, (s: Shipment) => !IsClosed(s.status))|
    ensures r.completedShipments + r.ongoingShipments == |shipments|
    ensures r.totalDrivers == |DriverSet(shipments + archived)|
    ensures r.totalDrivers <= r.totalShipment
    ensures r.totalFees == Sum(shipments, JobFee) + Sum(archived, JobFee)
  {
    var all := shipments + archived;
    var closed := Filter(shipments, (s: Shipment) => IsClosed(s.status));
    var open := Filter(shipments, (s: Shipment) => !IsClosed(s.status));
    FilterComplement(shipments, (s: Shipment) => IsClosed(s.status), (s: Shipment) => !IsClosed(s.status));
    DistinctAtMost(DriverEmails(all));
    assert (set e | e in DriverEmails(all)) == DriverSet(all);
    SumConcat(shipments, archived, JobFee);
    SenderStats(|all|, |closed|, |open|, |archived|, |set e | e in DriverEmails(all)|, Sum(all, JobFee))
  }

  /** The drivers card counts each non-empty e-mail once, however many records carry it. */
  lemma DriversAreDistinctEmails(shipments: seq<Shipment>, archived: seq<Shipment>, e: string)
    ensures e in (set x | x in DriverEmails(shipments + archived)) <==>
      e != "" && exists s :: s in shipments + archived && AssignedTo(s, e)
  {
  }

  /** The doughnut's three slices, ongoing, completed and archived, cover every record
      exactly once. */
  lemma DoughnutCoversAll(shipments: seq<Shipment>, archived: seq<Shipment>)
    ensures var st := Stats(shipments, archived);
      Total(Doughnut(st.ongoingShipments, st.completedShipments, st.archivedShipments)) == st.totalShipment
  {
  }

  /** `barChartData`: records created in each of the last twelve months, both lists
      together. */
  method BarChart(today: YearMonth, shipments: seq<Shipment>, archived: seq<Shipment>) returns (data: seq<int>)
    requires ValidMonth(today)
    ensures |data| == 12
    ensures forall i :: 0 <= i < 12 ==> data[i] == CreatedCount(shipments + archived, Window(today)[i])
    ensures 0 <= Total(data) <= |shipments| + |archived|
  {
    data := CountByCreatedMonth(today, shipments + archived);
  }
}
