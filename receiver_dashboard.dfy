/** The receiver's dashboard (src/pages/ReceiverDashboard.jsx): the active and hidden lists,
    keyed on `receiver.email` and on its `archived-` form, their split and search, the
    tracking modal, and the handlers that write to the store. */
module ReceiverDashboard {
  import opened Wrappers
  import opened Seqs
  import opened Text
  import opened Shipments
  import opened Store
  import opened Tracking

  // ---- Lists -------------------------------------------------------------------------

  /** The value hiding writes into `receiver.email`. */
  function ArchivedTag(email: string): (r: string)
    ensures r != email && |r| == |email| + 9
  {
    "archived-" + email
  }

  predicate Kept(s: Shipment) {
    !s.deletedByReceiver
  }

  /** `where('receiver.email', '==', key)`, `.filter(s => !s.deletedByReceiver)`, sorted
      by `createdAt`, newest first. */
  function ListFor(docs: seq<Shipment>, key: string): seq<Shipment> {
    SortNewest(Filter(Filter(docs, (s: Shipment) => s.receiver.email == key), Kept), CreatedAt)
  }

  /** `myShipments`. */
  function ActiveList(docs: seq<Shipment>, email: string): seq<Shipment> {
    ListFor(docs, email)
  }

  /** `archivedShipments`. */
  function ArchivedList(docs: seq<Shipment>, email: string): seq<Shipment> {
    ListFor(docs, ArchivedTag(email))
  }

  /** A list holds exactly the records with its key that the receiver has not deleted,
      newest first. */
  lemma ListForContents(docs: seq<Shipment>, key: string)
    ensures forall x :: x in ListFor(docs, key) <==> x in docs && x.receiver.email == key && !x.deletedByReceiver
    ensures NewestFirst(ListFor(docs, key), CreatedAt)
  {
    var keyed := Filter(docs, (s: Shipment) => s.receiver.email == key);
    PermutationMembers(ListFor(docs, key), Filter(keyed, Kept));
  }

  /** The active and the hidden list hold the receiver's records under the two keys, and
      no record is in both. */
  lemma ListsContents(docs: seq<Shipment>, email: string)
    ensures forall x :: x in ActiveList(docs, email) <==>
      x in docs && x.receiver.email == email && !x.deletedByReceiver
    ensures forall x :: x in ArchivedList(docs, email) <==>
      x in docs && x.receiver.email == ArchivedTag(email) && !x.deletedByReceiver
    ensures forall x :: !(x in ActiveList(docs, email) && x in ArchivedList(docs, email))
  {
    ListForContents(docs, email);
    ListForContents(docs, ArchivedTag(email));
  }

  /** A kept record with the key is in that key's list. */
  lemma InListFor(docs: seq<Shipment>, key: string, x: Shipment)
    requires x in docs && x.receiver.email == key && !x.deletedByReceiver
    ensures x in ListFor(docs, key)
  {
    ListForContents(docs, key);
  }

  /** No record with id `id` in a list when every such record carries another key. */
  lemma NoneInListFor(docs: seq<Shipment>, key: string, id: string)
    requires forall i :: 0 <= i < |docs| && docs[i].id == id ==> docs[i].receiver.email != key
    ensures forall x :: x in ListFor(docs, key) ==> x.id != id
  {
    ListForContents(docs, key);
    forall x | x in docs && x.id == id ensures x.receiver.email != key {
      var i :| 0 <= i < |docs| && docs[i] == x;
    }
  }

  /** A record of a list is a kept record of the collection with that key. */
  lemma FromListFor(docs: seq<Shipment>, key: string, x: Shipment)
    requires x in ListFor(docs, key)
    ensures x in docs && x.receiver.email == key && !x.deletedByReceiver
  {
    ListForContents(docs, key);
  }

  /** Hiding a record of the active list moves it to the hidden list. */
  lemma HideMovesToArchived(docs: seq<Shipment>, email: string, s: Shipment)
    requires s in ActiveList(docs, email)
    ensures var hidden := UpdateById(docs, s.id, SetReceiverEmail(ArchivedTag(email)));
      && Apply(SetReceiverEmail(ArchivedTag(email)), s) in ArchivedList(hidden, email)
      && (forall x :: x in ActiveList(hidden, email) ==> x.id != s.id)
  {
    var toHidden := SetReceiverEmail(ArchivedTag(email));
    FromListFor(docs, email, s);
    var k :| 0 <= k < |docs| && docs[k] == s;
    var hidden := UpdateById(docs, s.id, toHidden);
    assert hidden[k] == Apply(toHidden, s);
    assert forall i :: 0 <= i < |hidden| && hidden[i].id == s.id ==> hidden[i].receiver.email == ArchivedTag(email);
    InListFor(hidden, ArchivedTag(email), hidden[k]);
    NoneInListFor(hidden, email, s.id);
  }

  /** Unhiding a hidden record writes back the e-mail it had, so hide then unhide leaves
      the store as it was. */
  lemma HideThenUnhide(docs: seq<Shipment>, email: string, s: Shipment)
    requires UniqueIds(docs) && s in docs && s.receiver.email == email
    ensures UpdateById(UpdateById(docs, s.id, SetReceiverEmail(ArchivedTag(email))), s.id, SetReceiverEmail(email)) == docs
  {
    var r := UpdateById(UpdateById(docs, s.id, SetReceiverEmail(ArchivedTag(email))), s.id, SetReceiverEmail(email));
    forall i | 0 <= i < |docs| ensures r[i] == docs[i] {
      if docs[i].id == s.id {
        SameIdSameDoc(docs, docs[i], s);
      }
    }
  }

  /** After a permanent delete the record is in neither list. */
  lemma DeleteLeavesBothLists(docs: seq<Shipment>, email: string, id: string, at: Instant)
    ensures forall x :: x in ActiveList(UpdateById(docs, id, DeleteForReceiver(at)), email) ==> x.id != id
    ensures forall x :: x in ArchivedList(UpdateById(docs, id, DeleteForReceiver(at)), email) ==> x.id != id
  {
    var after := UpdateById(docs, id, DeleteForReceiver(at));
    forall x | x in after && x.id == id ensures x.deletedByReceiver {
      var i :| 0 <= i < |after| && after[i] == x;
    }
    ListForContents(after, email);
    ListForContents(after, ArchivedTag(email));
  }

  /** A permanent delete sets only the flag and its timestamp; mark-received writes
      Received and clears the location; not-received writes only Delivered; saving binds
      the receiver's e-mail and name. */
  lemma ReceiverWrites(s: Shipment, u: User, at: Instant)
    ensures Apply(DeleteForReceiver(at), s).(deletedByReceiver := s.deletedByReceiver,
      deletedByReceiverAt := s.deletedByReceiverAt) == s
    ensures Apply(DeleteForReceiver(at), s).deletedByReceiver
    ensures Apply(MarkReceived, s).(status := s.status, currentDriverLocation := s.currentDriverLocation) == s
    ensures Apply(MarkReceived, s).status == Received && Apply(MarkReceived, s).currentDriverLocation.None?
    ensures Apply(MarkNotReceived, s) == s.(status := Delivered)
    ensures var name := if u.displayName != "" then u.displayName else s.receiver.name;
      Apply(SaveForReceiver(u.email, name), s).receiver == s.receiver.(email := u.email, name := name)
  {
  }

  /** Saving a tracked record that the receiver has not deleted puts it in the active list. */
  lemma SaveBringsIntoList(docs: seq<Shipment>, u: User, s: Shipment)
    requires UniqueIds(docs) && s in docs && !s.deletedByReceiver
    ensures var name := if u.displayName != "" then u.displayName else s.receiver.name;
      Apply(SaveForReceiver(u.email, name), s) in ActiveList(UpdateById(docs, s.id, SaveForReceiver(u.email, name)), u.email)
  {
    var name := if u.displayName != "" then u.displayName else s.receiver.name;
    var after := UpdateById(docs, s.id, SaveForReceiver(u.email, name));
    var k :| 0 <= k < |docs| && docs[k] == s;
    assert after[k] == Apply(SaveForReceiver(u.email, name), s);
    InListFor(after, u.email, after[k]);
  }

  /** `ongoingShipments`. */
  function Ongoing(mine: seq<Shipment>): seq<Shipment> {
    Filter(mine, (s: Shipment) => !IsClosed(s.status))
  }

  /** `completedShipments`. */
  function Closed(mine: seq<Shipment>): seq<Shipment> {
    Filter(mine, (s: Shipment) => IsClosed(s.status))
  }

  /** Ongoing and completed split the active list: a record is completed exactly when it
      is Received or Completed, and the two sizes add up to the list's. */
  lemma SplitPartition(mine: seq<Shipment>)
    ensures forall x :: x in Closed(mine) <==> x in mine && (x.status == Received || x.status == Completed)
    ensures forall x :: x in Ongoing(mine) <==> x in mine && x.status != Received && x.status != Completed
    ensures |Ongoing(mine)| + |Closed(mine)| == |mine|
  {
    FilterComplement(mine, (s: Shipment) => IsClosed(s.status), (s: Shipment) => !IsClosed(s.status));
  }

  predicate MatchesSearch(s: Shipment, term: string) {
    var t := Lower(term);
    Contains(Lower(s.shipmentId), t) || (s.driver.Some? && Contains(Lower(s.driver.value.name), t))
    || Contains(Lower(s.goods.name), t)
  }

  /** `filterShipments`: an empty term keeps the list; otherwise the records, in order,
      whose code, driver name or goods name contains the lower-cased term. */
  function FilterShipments(list: seq<Shipment>, term: string): (r: seq<Shipment>)
    ensures term == "" ==> r == list
    ensures term != "" ==> forall x :: x in r <==> x in list && MatchesSearch(x, term)
    ensures |r| <= |list|
    ensures Subsequence(r, list)
  {
    if term == "" then
      SubsequenceOfItself(list);
      list
    else
      FilterKeepsOrder(list, (s: Shipment) => MatchesSearch(s, term));
      Filter(list, (s: Shipment) => MatchesSearch(s, term))
  }

  // ---- The session -------------------------------------------------------------------

  /** The manual tracking form's message: none, `error.noShipmentId`, `error.notFound` or
      `error.generic`. */
  datatype TrackError = NoTrackError | NoShipmentIdError | NotFoundTrackError | GenericTrackError

  class ReceiverSession {
    const user: User
    const sub: Subscription
    var myShipments: seq<Shipment>
    var archivedShipments: seq<Shipment>
    /** `trackingShipment`. */
    var tracking: Option<Shipment>
    /** `trackingShipment.modalError` is set. */
    var modalError: bool
    /** The page-level `error` banner has been set. */
    var failed: bool
    /** `manualShipmentId`, the code typed in the manual tracking form. */
    var manualInput: string
    /** `manualError`. */
    var manualError: TrackError

    /** A listener is live exactly while the modal shows a record. */
    ghost predicate Valid()
      reads this, sub
    {
      sub.Valid() && (sub.handle.Some? <==> tracking.Some?)
    }

    constructor (u: User)
      ensures Valid() && user == u && myShipments == [] && archivedShipments == []
      ensures tracking.None? && !modalError && !failed && fresh(sub)
      ensures manualInput == "" && manualError == NoTrackError
    {
      user := u;
      sub := new Subscription();
      myShipments := [];
      archivedShipments := [];
      tracking := None;
      modalError := false;
      failed := false;
      manualInput := "";
      manualError := NoTrackError;
    }

    /** The two list listeners; nothing is queried without an e-mail. Each keeps its list
        when it fails (`activeOk`, `archivedOk` false); only the active listener's failure
        raises the page banner, the archived one's is only logged. */
    method Refresh(store: ShipmentStore, activeOk: bool, archivedOk: bool)
      modifies this`myShipments, this`archivedShipments, this`failed
      ensures user.email == "" ==>
        myShipments == old(myShipments) && archivedShipments == old(archivedShipments) && failed == old(failed)
      ensures user.email != "" ==>
        && myShipments == (if activeOk then ActiveList(store.docs, user.email) else old(myShipments))
        && archivedShipments == (if archivedOk then ArchivedList(store.docs, user.email) else old(archivedShipments))
        && failed == (old(failed) || !activeOk)
    {
      if user.email != "" {
        if activeOk {
          myShipments := ActiveList(store.docs, user.email);
        } else {
          failed := true;
        }
        if archivedOk {
          archivedShipments := ArchivedList(store.docs, user.email);
        }
      }
    }

    /** `isShipmentInList`. */
    function InList(): (b: bool)
      reads this
      ensures b <==> tracking.Some? && tracking.value.id in Ids(myShipments)
    {
      tracking.Some? && tracking.value.id in Ids(myShipments)
    }

    /** `openLiveTrackingModal`: the previous listener is cancelled before the new one is
        installed. */
    method OpenTracking(s: Shipment)
      requires Valid()
      modifies this`tracking, this`modalError, sub
      ensures Valid()
      ensures tracking == Some(s) && !modalError
      ensures sub.handle.Some? && sub.live == {sub.handle.value} && sub.handle.value !in old(sub.live)
    {
      var _ := sub.Replace();
      tracking := Some(s);
      modalError := false;
    }

    /** `handleCloseModal`. */
    method CloseModal()
      requires Valid()
      modifies this`tracking, sub
      ensures Valid()
      ensures tracking.None? && sub.handle.None? && sub.live == {}
    {
      sub.Cancel();
      tracking := None;
    }

    /** A snapshot of the tracked document: its fields replace the shown ones; a missing
        document closes the modal. */
    method OnSnapshot(store: ShipmentStore)
      requires Valid() && tracking.Some?
      modifies this`tracking, sub
      ensures Valid()
      ensures Find(store.docs, old(tracking).value.id).Some? ==>
        tracking == Find(store.docs, old(tracking).value.id) && sub.handle == old(sub.handle) && sub.live == old(sub.live)
      ensures Find(store.docs, old(tracking).value.id).None? ==> tracking.None? && sub.live == {}
    {
      var found := Find(store.docs, tracking.value.id);
      if found.Some? {
        tracking := found;
      } else {
        CloseModal();
      }
    }

    /** The code field's `onChange`: the typed text is kept upper-cased. */
    method TypeCode(text: string)
      modifies this`manualInput
      ensures manualInput == Upper(text)
    {
      manualInput := Upper(text);
    }

    /** `handleManualTrack`: an empty code is refused, a failed query or a code with no
        record reports it, and otherwise the first record with the upper-cased code is
        opened and the field is cleared. */
    method ManualTrack(store: ShipmentStore, queryOk: bool) returns (shown: bool)
      requires Valid()
      modifies this`tracking, this`modalError, this`manualInput, this`manualError, sub
      ensures Valid()
      ensures var matches := CodeQuery(store.docs, old(manualInput));
        && (shown <==> old(manualInput) != "" && queryOk && matches != [])
        && (shown ==> tracking == Some(matches[0]) && !modalError)
        && (old(manualInput) != "" && queryOk && matches == [] ==> manualError == NotFoundTrackError)
      ensures shown ==> manualInput == "" && manualError == NoTrackError
      ensures shown ==> tracking.value.shipmentId == Upper(old(manualInput)) && tracking.value in store.docs
      ensures old(manualInput) == "" ==> manualError == NoShipmentIdError
      ensures old(manualInput) != "" && !queryOk ==> manualError == GenericTrackError
      ensures !shown ==> tracking == old(tracking) && modalError == old(modalError) && manualInput == old(manualInput)
      ensures !shown ==> unchanged(sub)
      ensures shown ==> sub.live == {sub.handle.value} && sub.handle.value !in old(sub.live)
    {
      manualError := NoTrackError;
      if manualInput == "" {
        manualError := NoShipmentIdError;
        return false;
      }
      if !queryOk {
        manualError := GenericTrackError;
        return false;
      }
      var matches := CodeQuery(store.docs, manualInput);
      if matches == [] {
        manualError := NotFoundTrackError;
        return false;
      }
      assert matches[0] in matches;
      OpenTracking(matches[0]);
      manualInput := "";
      shown := true;
    }

    /** `handleMarkAsReceived`, offered on the ongoing list and, for a Delivered record of
        the list, in the modal; no status is required. A stored write closes the modal. */
    method MarkAsReceived(store: ShipmentStore, id: string, transportOk: bool) returns (ok: bool)
      requires store.Valid() && Valid()
      requires id in Ids(Ongoing(myShipments))
        || (tracking.Some? && tracking.value.id == id && tracking.value.status == Delivered && InList())
      modifies this`tracking, this`failed, sub, store
      ensures store.Valid() && Valid()
      ensures ok == (id != "" && transportOk && id in Ids(old(store.docs)))
      ensures store.docs == if ok then UpdateById(old(store.docs), id, MarkReceived) else old(store.docs)
      ensures ok ==> tracking.None? && sub.live == {}
      ensures !ok ==> tracking == old(tracking) && sub.live == old(sub.live)
      ensures failed == (old(failed) || (id != "" && !ok))
    {
      if id == "" {
        return false;
      }
      ok := store.Update(id, MarkReceived, transportOk);
      if ok {
        CloseModal();
      } else {
        failed := true;
      }
    }

    /** `handleUncompleteShipment`, offered on the completed list. */
    method Uncomplete(store: ShipmentStore, id: string, transportOk: bool) returns (ok: bool)
      requires store.Valid() && id in Ids(Closed(myShipments))
      modifies this`failed, store
      ensures store.Valid()
      ensures ok == (id != "" && transportOk && id in Ids(old(store.docs)))
      ensures store.docs == if ok then UpdateById(old(store.docs), id, MarkNotReceived) else old(store.docs)
      ensures failed == (old(failed) || (id != "" && !ok))
    {
      if id == "" {
        return false;
      }
      ok := store.Update(id, MarkNotReceived, transportOk);
      if !ok {
        failed := true;
      }
    }

    /** `handleHideShipment`, offered on the ongoing and completed lists. */
    method Hide(store: ShipmentStore, id: string, transportOk: bool) returns (ok: bool)
      requires store.Valid() && id in Ids(myShipments)
      modifies this`failed, store
      ensures store.Valid()
      ensures ok == (id != "" && transportOk && id in Ids(old(store.docs)))
      ensures store.docs == if ok then UpdateById(old(store.docs), id, SetReceiverEmail(ArchivedTag(user.email))) else old(store.docs)
      ensures failed == (old(failed) || (id != "" && !ok))
    {
      if id == "" {
        return false;
      }
      ok := store.Update(id, SetReceiverEmail(ArchivedTag(user.email)), transportOk);
      if !ok {
        failed := true;
      }
    }

    /** `handleUnhideShipment`, offered on the hidden list. */
    method Unhide(store: ShipmentStore, id: string, transportOk: bool) returns (ok: bool)
      requires store.Valid() && id in Ids(archivedShipments)
      modifies this`failed, store
      ensures store.Valid()
      ensures ok == (id != "" && transportOk && id in Ids(old(store.docs)))
      ensures store.docs == if ok then UpdateById(old(store.docs), id, SetReceiverEmail(user.email)) else old(store.docs)
      ensures failed == (old(failed) || (id != "" && !ok))
    {
      if id == "" {
        return false;
      }
      ok := store.Update(id, SetReceiverEmail(user.email), transportOk);
      if !ok {
        failed := true;
      }
    }

    /** `handleDeletePermanently`, offered on the hidden list, after the dialog. */
    method DeletePermanently(store: ShipmentStore, id: string, confirmed: bool, now: Instant, transportOk: bool)
      returns (ok: bool)
      requires store.Valid() && id in Ids(archivedShipments)
      modifies this`failed, store
      ensures store.Valid()
      ensures ok == (confirmed && transportOk && id in Ids(old(store.docs)))
      ensures store.docs == if ok then UpdateById(old(store.docs), id, DeleteForReceiver(now)) else old(store.docs)
      ensures failed == (old(failed) || (confirmed && !ok))
    {
      if !confirmed {
        return false;
      }
      ok := store.Update(id, DeleteForReceiver(now), transportOk);
      if !ok {
        failed := true;
      }
    }

    /** `handleSaveShipment`, offered in the modal for a record that is neither in the list
        nor closed: it binds the record to the receiver's e-mail and name. */
    method Save(store: ShipmentStore, transportOk: bool) returns (ok: bool)
      requires store.Valid() && Valid() && tracking.Some? && !InList() && !IsClosed(tracking.value.status)
      modifies this`modalError, store
      ensures store.Valid()
      ensures var s := old(tracking).value;
        var name := if user.displayName != "" then user.displayName else s.receiver.name;
        && ok == (transportOk && s.id in Ids(old(store.docs)))
        && store.docs == (if ok then UpdateById(old(store.docs), s.id, SaveForReceiver(user.email, name)) else old(store.docs))
      ensures modalError == (old(modalError) || !ok)
    {
      var s := tracking.value;
      var name := if user.displayName != "" then user.displayName else s.receiver.name;
      ok := store.Update(s.id, SaveForReceiver(user.email, name), transportOk);
      if !ok {
        modalError := true;
      }
    }
  }
}
