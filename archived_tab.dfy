/** The sender's archived shipments (src/features/sender/ArchivedTab.jsx): its search box
    and the two-click delete button. Unarchive is the dashboard's
    `SenderSession.Unarchive`. */
module ArchivedTab {
  import opened Seqs
  import opened Text
  import opened Shipments
  import opened Store
  import opened SenderDashboard

  /** The code or the receiver's name contains the lower-cased term. */
  predicate ArchivedRowMatches(s: Shipment, term: string) {
    Contains(Lower(s.shipmentId), Lower(term)) || Contains(Lower(s.receiver.name), Lower(term))
  }

  /** `filteredShipments`: an empty term keeps the list; any other term keeps, in order,
      exactly the matching records. */
  function Search(shipments: seq<Shipment>, term: string): (r: seq<Shipment>)
    ensures term == "" ==> r == shipments
    ensures term != "" ==> forall s :: s in r <==> s in shipments && ArchivedRowMatches(s, term)
    ensures Subsequence(r, shipments)
  {
    SearchBy(shipments, term, (s: Shipment) => ArchivedRowMatches(s, term))
  }

  /** The delete button shows the confirm label only on the row armed for deleting. */
  predicate ConfirmShown(pending: Confirmation, id: string) {
    ArmedFor(pending, id, DeleteAction)
  }

  /** The delete button's `onClick`, with the same two clicks as archiving: the second
      click on the labelled row deletes the record. */
  method DeleteClick(session: SenderSession, store: ShipmentStore, id: string, transportOk: bool)
    requires session.Valid() && store.Valid() && id in Ids(ArchivedShipments(session.allShipments))
    modifies session`pending, session`timer, session`running, session`nextTimer, session`error, store
    ensures session.Valid() && store.Valid()
    ensures !ConfirmShown(old(session.pending), id) ==>
      && (forall other :: ConfirmShown(session.pending, other) <==> other == id)
      && store.docs == old(store.docs) && session.error == old(session.error)
    ensures ConfirmShown(old(session.pending), id) && id != "" ==>
      && (forall other :: !ConfirmShown(session.pending, other))
      && session.running == {}
      && store.docs == Confirmed(old(store.docs), id, DeleteAction, transportOk).0
  {
    if ConfirmShown(session.pending, id) {
      var _ := session.ActionConfirm(store, transportOk);
    } else {
      session.StartConfirmation(id, DeleteAction);
    }
  }
}
