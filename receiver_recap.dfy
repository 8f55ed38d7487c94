/** The receiver's recap tab (src/features/receiver/ReceiverRecapTab.jsx): the summary
    cards, the doughnut, and the chart of records created per month, over the ongoing,
    completed and archived lists of the receiver's dashboard. */
module ReceiverRecap {
  import opened Seqs
  import opened Months
  import opened Shipments
  import opened Charts
  import ReceiverDashboard

  datatype ReceiverStats = ReceiverStats(
    totalShipments: nat,
    ongoingShipments: nat,
    completedShipments: nat,
    archivedShipments: nat,
    inTransit: nat)

  /** `stats`: the three list sizes, their sum, and the ongoing records In Transit. */
  function Stats(ongoing: seq<Shipment>, completed: seq<Shipment>, archived: seq<Shipment>): (r: ReceiverStats)
    ensures r.totalShipments == r.ongoingShipments + r.completedShipments + r.archivedShipments
    ensures r.ongoingShipments == |ongoing| && r.completedShipments == |completed| && r.archivedShipments == |archived|
    ensures r.inTransit <= r.ongoingShipments
    ensures r.inTransit == |Filter(ongoing, (s: Shipment) => s.status == InTransit)|
  {
    ReceiverStats(|ongoing| + |completed| + |archived|, |ongoing|, |completed|, |archived|,
                  |Filter(ongoing, (s: Shipment) => s.status == InTransit)|)
  }

  /** Fed from the dashboard, the total is every record the receiver sees: the whole active
      list, split into ongoing and completed, plus the archived list. */
  lemma TotalIsBothLists(mine: seq<Shipment>, archived: seq<Shipment>)
    ensures Stats(ReceiverDashboard.Ongoing(mine), ReceiverDashboard.Closed(mine), archived).totalShipments
            == |mine| + |archived|
  {
    ReceiverDashboard.SplitPartition(mine);
  }

  /** The doughnut's slices, ongoing, completed and archived, add up to the total card. */
  lemma DoughnutCoversAll(ongoing: seq<Shipment>, completed: seq<Shipment>, archived: seq<Shipment>)
    ensures var st := Stats(ongoing, completed, archived);
      Total(Doughnut(st.ongoingShipments, st.completedShipments, st.archivedShipments)) == st.totalShipments
  {
  }

  /** `barChartData`: records of the three lists created in each of the last twelve months. */
  method BarChart(today: YearMonth, ongoing: seq<Shipment>, completed: seq<Shipment>, archived: seq<Shipment>)
    returns (data: seq<int>)
    requires ValidMonth(today)
    ensures |data| == 12
    ensures forall i :: 0 <= i < 12 ==> data[i] == CreatedCount(ongoing + completed + archived, Window(today)[i])
    ensures 0 <= Total(data) <= Stats(ongoing, completed, archived).totalShipments
  {
    data := CountByCreatedMonth(today, ongoing + completed + archived);
  }
}
