/** The sender's list of active shipments (src/features/sender/ShipmentsTab.jsx): its
    search box and the two-click archive button, whose label and clicks work on the
    dashboard's confirmation state. */
module ShipmentsTab {
  import opened Seqs
  import opened Text
  import opened Shipments
  import opened Store
  import opened SenderDashboard

  /** `x.toLowerCase().includes(term)` with `term` already lower-cased. */
  predicate Has(field: string, term: string) {
    Contains(Lower(field), Lower(term))
  }

  /** The code, the receiver's name, or the driver's name (a record without a driver has
      none to match) contains the term. */
  predicate RowMatches(s: Shipment, term: string) {
    Has(s.shipmentId, term) || Has(s.receiver.name, term)
    || (s.driver.Some? && Has(s.driver.value.name, term))
  }

  /** `filteredShipments`: an empty term keeps the list; any other term keeps, in order,
      exactly the matching records. */
  function Search(shipments: seq<Shipment>, term: string): (r: seq<Shipment>)
    ensures term == "" ==> r == shipments
    ensures term != "" ==> forall s :: s in r <==> s in shipments && RowMatches(s, term)
    ensures Subsequence(r, shipments)
  {
    SearchBy(shipments, term, (s: Shipment) => RowMatches(s, term))
  }

  /** The archive button shows the confirm label, and the warning colour, only on the row
      armed for archiving. */
  predicate ConfirmShown(pending: Confirmation, id: string) {
    ArmedFor(pending, id, ArchiveAction)
  }

  /** The archive button's `onClick`: a click on the row showing the confirm label
      archives it and leaves no row labelled; a click on any other row moves the label
      to that row alone and writes nothing. */
  method ArchiveClick(session: SenderSession, store: ShipmentStore, id: string, transportOk: bool)
    requires session.Valid() && store.Valid() && id in Ids(ActiveShipments(session.allShipments))
    modifies session`pending, session`timer, session`running, session`nextTimer, session`error, store
    ensures session.Valid() && store.Valid()
    ensures !ConfirmShown(old(session.pending), id) ==>
      && (forall other :: ConfirmShown(session.pending, other) <==> other == id)
      && store.docs == old(store.docs) && session.error == old(session.error)
    ensures ConfirmShown(old(session.pending), id) && id != "" ==>
      && (forall other :: !ConfirmShown(session.pending, other))
      && session.running == {}
      && store.docs == Confirmed(old(store.docs), id, ArchiveAction, transportOk).0
  {
    if ConfirmShown(session.pending, id) {
      var _ := session.ActionConfirm(store, transportOk);
    } else {
      session.StartConfirmation(id, ArchiveAction);
    }
  }
}
