/** The sender's dashboard (src/pages/SenderDashboard.jsx): the record the shipment form
    writes, the two-click inline confirmation with its expiry timer, the archive,
    unarchive, hide, delete and complete writes, the tracking modal's listener, and the
    active/archived split of the sender's records. */
module SenderDashboard {
  import opened Wrappers
  import opened Seqs
  import opened Text
  import opened Shipments
  import opened Store
  import opened Tracking

  // ---- The record builder ----------------------------------------------------------------

  /** Some driver field is non-blank after `trim`, or the fee is non-empty. */
  predicate HasDriverData(f: FormData) {
    !IsBlank(f.driverName) || !IsBlank(f.driverId) || !IsBlank(f.driverEmail)
    || !IsBlank(f.driverPhone) || !IsBlank(f.driverCarPlate) || f.driverFee != ""
  }

  /** The `driver` map built from the form. */
  function FormDriver(f: FormData): Driver {
    Driver(f.driverName, f.driverId, f.driverEmail, f.driverCarPlate, f.driverPhone, f.driverFee)
  }

  /** `x || null` on an optional string: the empty string is falsy. */
  function NonEmpty(x: Option<string>): (r: Option<string>)
    ensures r.Some? ==> r == x && r.value != ""
    ensures x.Some? && x.value != "" ==> r == x
  {
    if x == Some("") then None else x
  }

  /** `shipmentData` with its conditional `driver` key. When editing, the lifecycle fields
      come from `current`, the record with the edited id in the sender's list (`None`
      when it is not there); a new record starts Pending, unarchived, unlocated and
      unsigned. `now` is `new Date()`. */
  function BuildDraft(f: FormData, uid: string, editing: bool, current: Option<Shipment>, now: Instant): (d: Draft)
    ensures d.sender == uid
    ensures d.receiver == Receiver(f.receiverName, f.receiverPhone, f.receiverEmail, f.receiverCompany, f.receiverAddress)
    ensures d.goods == Goods(f.goodsName, f.goodsKind, f.goodsWeight)
    ensures !(editing && current.Some?) ==>
      && d.status == Pending && !d.archived && d.location.None? && d.signature.None?
      && d.createdAt == now
    ensures editing && current.Some? ==>
      && d.status == current.value.status && d.archived == current.value.archived
      && d.location == current.value.currentDriverLocation
      && d.signature == NonEmpty(current.value.signature)
      && d.createdAt == current.value.createdAt.GetOr(now)
    ensures HasDriverData(f) ==> d.driver == Some(FormDriver(f))
    ensures !HasDriverData(f) ==> d.driver == (if editing && current.Some? then current.value.driver else None)
  {
    var found := editing && current.Some?;
    var base := Draft(
      uid,
      if found then current.value.status else Pending,
      if found then current.value.createdAt.GetOr(now) else now,
      if found then current.value.archived else false,
      Receiver(f.receiverName, f.receiverPhone, f.receiverEmail, f.receiverCompany, f.receiverAddress),
      Goods(f.goodsName, f.goodsKind, f.goodsWeight),
      if found then current.value.currentDriverLocation else None,
      if found then NonEmpty(current.value.signature) else None,
      None);
    if HasDriverData(f) then base.(driver := Some(FormDriver(f)))
    else if found && current.value.driver.Some? then base.(driver := current.value.driver)
    else base
  }

  /** A digit of `Number.prototype.toString(36)`. */
  predicate Base36(c: char) {
    '0' <= c <= '9' || 'a' <= c <= 'z'
  }

  /** `'LOG-' + Math.random().toString(36).substr(2, 6).toUpperCase()`, where `fraction`
      is the part of the base-36 expansion after `"0."`. */
  function ShipmentCode(fraction: string): (code: string)
    requires forall i :: 0 <= i < |fraction| ==> Base36(fraction[i])
    ensures 4 <= |code| <= 10 && code[..4] == "LOG-"
    ensures |fraction| >= 6 ==> |code| == 10
    ensures forall i :: 4 <= i < |code| ==> '0' <= code[i] <= '9' || 'A' <= code[i] <= 'Z'
  {
    var t := Take(fraction, 6);
    var u := Upper(t);
    assert forall i :: 0 <= i < |u| ==> u[i] == UpperChar(t[i]) && Base36(t[i]) by {
      assert forall i :: 0 <= i < |t| ==> t[i] == fraction[i];
    }
    assert forall i :: 4 <= i < |"LOG-" + u| ==> ("LOG-" + u)[i] == u[i - 4];
    "LOG-" + u
  }

  /** The form `handleEditClick` fills from a record. */
  function FormOf(s: Shipment): FormData {
    var d := s.driver.GetOr(NoDriver);
    FormData(s.receiver.name, s.receiver.phone, s.receiver.email, s.receiver.company, s.receiver.address,
             d.name, d.id, d.email, d.carPlate, d.phone, d.fee,
             s.goods.name, s.goods.kind, s.goods.weight)
  }

  /** An edit keeps the current record's lifecycle fields, everything the form does not
      show, and the stored driver when the driver fields are left blank. */
  lemma EditKeepsLifecycle(f: FormData, uid: string, cur: Shipment, now: Instant)
    requires cur.createdAt.Some? && cur.signature != Some("")
    ensures var r := Apply(Edit(BuildDraft(f, uid, true, Some(cur), now)), cur);
      && r.status == cur.status && r.createdAt == cur.createdAt && r.archived == cur.archived
      && r.currentDriverLocation == cur.currentDriverLocation && r.signature == cur.signature
      && (!HasDriverData(f) ==> r.driver == cur.driver)
      && r.claimedAt == cur.claimedAt && r.deliveredAt == cur.deliveredAt
      && r.archivedByDriver == cur.archivedByDriver && r.deletedByDriver == cur.deletedByDriver
      && r.deletedByReceiver == cur.deletedByReceiver && r.paymentStatus == cur.paymentStatus
  {
  }

  /** Opening a record in the form and saving it unchanged writes the record back as it
      was. */
  lemma EditUnchangedIsIdentity(s: Shipment, now: Instant)
    requires s.createdAt.Some? && s.signature != Some("")
    ensures Apply(Edit(BuildDraft(FormOf(s), s.sender, true, Some(s), now)), s) == s
  {
    var f := FormOf(s);
    var r := Apply(Edit(BuildDraft(f, s.sender, true, Some(s), now)), s);
    if HasDriverData(f) {
      assert s.driver.Some?;
      assert FormDriver(f) == s.driver.value;
    }
    assert r.receiver == s.receiver && r.goods == s.goods && r.driver == s.driver;
  }

  /** What `addDoc` stores for a new record. */
  lemma NewRecordFields(docId: string, fraction: string, f: FormData, uid: string, now: Instant)
    requires forall i :: 0 <= i < |fraction| ==> Base36(fraction[i])
    ensures var r := NewRecord(docId, ShipmentCode(fraction), BuildDraft(f, uid, false, None, now));
      && r.status == Pending && !r.archived && r.currentDriverLocation.None? && r.signature.None?
      && r.sender == uid && r.createdAt == Some(now) && r.id == docId
      && r.shipmentId[..4] == "LOG-" && |r.shipmentId| <= 10
      && (r.driver.Some? <==> HasDriverData(f))
  {
  }

  // ---- The active/archived split ------------------------------------------------------------

  function ActiveShipments(all: seq<Shipment>): (r: seq<Shipment>)
    ensures forall s :: s in r <==> s in all && !s.archived
  {
    Filter(all, (s: Shipment) => !s.archived)
  }

  function ArchivedShipments(all: seq<Shipment>): (r: seq<Shipment>)
    ensures forall s :: s in r <==> s in all && s.archived
  {
    Filter(all, (s: Shipment) => s.archived)
  }

  /** The two lists split the sender's records: disjoint, and together as long as the whole. */
  lemma ActivePartition(all: seq<Shipment>)
    ensures forall s :: s in all <==> s in ActiveShipments(all) || s in ArchivedShipments(all)
    ensures forall s :: !(s in ActiveShipments(all) && s in ArchivedShipments(all))
    ensures |ActiveShipments(all)| + |ArchivedShipments(all)| == |all|
  {
    FilterComplement(all, (s: Shipment) => !s.archived, (s: Shipment) => s.archived);
  }

  /** Archive and hide land a record in the archived list, unarchive in the active list;
      complete writes `Completed` and drops the location; none of them touches another field. */
  lemma SenderWrites(s: Shipment)
    ensures Apply(SetArchived(true), s) == s.(archived := true)
    ensures Apply(SetArchived(false), s) == s.(archived := false)
    ensures Apply(SetArchived(true), s) in ArchivedShipments([Apply(SetArchived(true), s)])
    ensures Apply(SetArchived(false), s) in ActiveShipments([Apply(SetArchived(false), s)])
    ensures Apply(Complete, s) == s.(status := Completed, currentDriverLocation := None)
  {
  }

  /** The three actions the inline confirmation can arm. */
  datatype Action = ArchiveAction | DeleteAction | HideAction

  /** The store after the armed action is carried out, and whether its write succeeded:
      archive and hide set `archived` on the document, which must exist; delete removes
      it, and succeeds even when it is already gone. */
  function Confirmed(docs: seq<Shipment>, id: string, a: Action, transportOk: bool): (r: (seq<Shipment>, bool))
    requires UniqueIds(docs)
    ensures UniqueIds(r.0)
    ensures r.1 <==> transportOk && (a == DeleteAction || id in Ids(docs))
    ensures !r.1 ==> r.0 == docs
    ensures r.1 && a == DeleteAction ==> id !in Ids(r.0) && forall d :: d in r.0 <==> d in docs && d.id != id
    ensures r.1 && a != DeleteAction ==>
      && Ids(r.0) == Ids(docs) && Find(r.0, id).Some? && Find(r.0, id).value.archived
      && Find(r.0, id).value == Find(docs, id).value.(archived := true)
  {
    if a == DeleteAction then
      RemoveKeepsUnique(docs, id);
      if transportOk then (RemoveId(docs, id), true) else (docs, false)
    else if transportOk && id in Ids(docs) then
      UpdateTouchesOnlyItsDocument(docs, id, SetArchived(true));
      (UpdateById(docs, id, SetArchived(true)), true)
    else (docs, false)
  }

  /** The Complete button is offered for any record not yet Completed, Received included. */
  predicate CompleteOffered(s: Shipment) {
    s.status != Completed
  }

  // ---- The session ------------------------------------------------------------------------

  /** `pendingConfirmation`: `{ id: null, action: null }` or an armed row. */
  datatype Confirmation = NoConfirmation | Armed(id: string, action: Action)

  /** The row `id` is armed for `a`: its button shows the confirm label. */
  predicate ArmedFor(c: Confirmation, id: string, a: Action) {
    c == Armed(id, a)
  }

  /** The page's one `error` message, shown above the form and set both by the dashboard
      and, through `setError`, by the form's checks; `NoError` is `''`. */
  datatype PageError =
    | NoError
    | ReceiverNameMissing
    | ReceiverEmailInvalid
    | DriverNameMissing
    | DriverEmailInvalid
    | GoodsNameMissing
    /** `error.generic`: the list listener failed. */
    | GenericError
    | SaveFailed
    | HideFailed
    | UnhideFailed
    | DeleteFailed
    | UpdateFailed

  /** The message a failed confirmed action sets: archive and hide report `hideFailed`. */
  function ConfirmFailure(a: Action): (e: PageError)
    ensures e == DeleteFailed <==> a == DeleteAction
    ensures e == HideFailed <==> a != DeleteAction
  {
    if a == DeleteAction then DeleteFailed else HideFailed
  }

  /** What a press of the form's submit did. */
  datatype SubmitStart = Ignored | MockReset | Started

  /** `user.uid.startsWith('mock-uid-')`. */
  predicate IsMock(uid: string) {
    |uid| >= 9 && uid[..9] == "mock-uid-"
  }

  const EmptyForm := FormData("", "", "", "", "", "", "", "", "", "", "", "", "", "")

  class SenderSession {
    const user: User
    const sub: Subscription
    var allShipments: seq<Shipment>
    var form: FormData
    /** `editingShipmentId`. */
    var editingId: Option<string>
    var isSubmitting: bool
    var showSuccess: bool
    /** The page's `error`, shared with the form. */
    var error: PageError
    var pending: Confirmation
    /** `confirmationTimeoutId`. */
    var timer: Option<nat>
    /** The expiry timeouts scheduled and neither fired nor cleared. */
    var running: set<nat>
    var nextTimer: nat
    /** `trackingShipment`. */
    var tracking: Option<Shipment>

    /** Only the timeout in `confirmationTimeoutId` can still fire, so at most one can. A
        deleted tracked record empties the modal but leaves its listener in place, so the
        modal and the handle are not tied together. */
    ghost predicate Valid()
      reads this, sub
    {
      && sub.Valid()
      && (forall t :: t in running ==> timer == Some(t))
      && (forall t :: t in running ==> t < nextTimer)
    }

    constructor (u: User)
      ensures Valid() && user == u && allShipments == [] && form == EmptyForm && editingId.None?
      ensures !isSubmitting && !showSuccess && error == NoError && pending == NoConfirmation
      ensures timer.None? && running == {} && tracking.None? && fresh(sub)
    {
      user := u;
      sub := new Subscription();
      allShipments := [];
      form := EmptyForm;
      editingId := None;
      isSubmitting := false;
      showSuccess := false;
      error := NoError;
      pending := NoConfirmation;
      timer := None;
      running := {};
      nextTimer := 0;
      tracking := None;
    }

    /** The list listener: the sender's own records, newest first; a mock user never
        subscribes, and a failed listener (`queryOk` false) reports the generic error and
        leaves the list as it was. */
    method Refresh(store: ShipmentStore, queryOk: bool)
      modifies this`allShipments, this`error
      ensures IsMock(user.uid) ==> allShipments == old(allShipments) && error == old(error)
      ensures !IsMock(user.uid) && !queryOk ==> allShipments == old(allShipments) && error == GenericError
      ensures !IsMock(user.uid) && queryOk ==>
        && allShipments == SortNewest(Filter(store.docs, (s: Shipment) => s.sender == user.uid), CreatedAt)
        && error == old(error)
    {
      if IsMock(user.uid) {
        return;
      }
      if !queryOk {
        error := GenericError;
        return;
      }
      allShipments := SortNewest(Filter(store.docs, (s: Shipment) => s.sender == user.uid), CreatedAt);
    }

    // -- Inline confirmation

    /** `startConfirmation`: the previous timeout is cleared, the row is armed, and a new
        5-second timeout is scheduled. */
    method StartConfirmation(id: string, a: Action)
      requires Valid()
      modifies this`pending, this`timer, this`running, this`nextTimer
      ensures Valid()
      ensures pending == Armed(id, a)
      ensures timer == Some(old(nextTimer)) && running == {old(nextTimer)}
      ensures forall t :: t in old(running) ==> t !in running
    {
      if timer.Some? {
        running := running - {timer.value};
      }
      pending := Armed(id, a);
      timer := Some(nextTimer);
      running := {nextTimer};
      nextTimer := nextTimer + 1;
    }

    /** A scheduled timeout fires: the confirmation is disarmed, and the stale id stays in
        `confirmationTimeoutId`. */
    method Expire(t: nat)
      requires Valid() && t in running
      modifies this`pending, this`running
      ensures Valid()
      ensures pending == NoConfirmation && running == {} && timer == Some(t)
    {
      pending := NoConfirmation;
      running := running - {t};
    }


    /** `handleActionConfirm`: nothing happens unless a row is armed; otherwise the armed
        action is carried out, the confirmation is disarmed and the timeout cleared; a
        failed write sets the action's message. */
    method ActionConfirm(store: ShipmentStore, transportOk: bool) returns (ok: bool)
      requires Valid() && store.Valid()
      modifies this`pending, this`timer, this`running, this`error, store
      ensures Valid() && store.Valid()
      ensures (old(pending) == NoConfirmation || old(pending).id == "") ==>
        && !ok && pending == old(pending) && timer == old(timer) && running == old(running)
        && store.docs == old(store.docs) && error == old(error)
      ensures old(pending).Armed? && old(pending).id != "" ==>
        && (store.docs, ok) == Confirmed(old(store.docs), old(pending).id, old(pending).action, transportOk)
        && pending == NoConfirmation && timer.None? && running == {}
        && error == (if ok then old(error) else ConfirmFailure(old(pending).action))
    {
      if pending == NoConfirmation || pending.id == "" {
        return false;
      }
      match pending.action {
        case ArchiveAction => ok := store.Update(pending.id, SetArchived(true), transportOk);
        case DeleteAction => ok := store.Delete(pending.id, transportOk);
        case HideAction => ok := store.Update(pending.id, SetArchived(true), transportOk);
      }
      if !ok {
        error := ConfirmFailure(pending.action);
      }
      pending := NoConfirmation;
      if timer.Some? {
        running := running - {timer.value};
        timer := None;
      }
    }

    /** `handleUnarchive`, one click on a row of the archived tab. */
    method Unarchive(store: ShipmentStore, id: string, transportOk: bool) returns (ok: bool)
      requires store.Valid() && id in Ids(ArchivedShipments(allShipments))
      modifies this`error, store
      ensures store.Valid()
      ensures ok <==> transportOk && id in Ids(old(store.docs))
      ensures store.docs == if ok then UpdateById(old(store.docs), id, SetArchived(false)) else old(store.docs)
      ensures error == if ok then old(error) else UnhideFailed
    {
      ok := store.Update(id, SetArchived(false), transportOk);
      if !ok {
        error := UnhideFailed;
      }
    }

    /** `handleCompleteClick`, offered on the shipments tab for any record not already
        Completed. */
    method CompleteClick(store: ShipmentStore, id: string, transportOk: bool) returns (ok: bool)
      requires store.Valid()
      requires exists s :: s in ActiveShipments(allShipments) && s.id == id && CompleteOffered(s)
      modifies this`error, store
      ensures store.Valid()
      ensures ok <==> transportOk && id in Ids(old(store.docs))
      ensures store.docs == if ok then UpdateById(old(store.docs), id, Complete) else old(store.docs)
      ensures error == if ok then old(error) else UpdateFailed
    {
      ok := store.Update(id, Complete, transportOk);
      if !ok {
        error := UpdateFailed;
      }
    }

    // -- The form

    /** `handleEditClick`: the form is filled from the record, which becomes the one being
        edited, and the message is cleared. */
    method EditClick(s: Shipment)
      modifies this`form, this`editingId, this`error, this`showSuccess
      ensures form == FormOf(s) && editingId == Some(s.id) && error == NoError && !showSuccess
    {
      form := FormOf(s);
      editingId := Some(s.id);
      error := NoError;
      showSuccess := false;
    }

    /** The start of `handleCreateOrUpdateShipment`: a press while a save is in flight is
        ignored, a mock user only resets the form, otherwise the save starts with the message
        and the success banner cleared. */
    method BeginSubmit() returns (r: SubmitStart)
      modifies this`isSubmitting, this`form, this`editingId, this`error, this`showSuccess
      ensures old(isSubmitting) ==>
        && r == Ignored && isSubmitting && form == old(form)
        && editingId == old(editingId) && error == old(error) && showSuccess == old(showSuccess)
      ensures !old(isSubmitting) && IsMock(user.uid) ==>
        && r == MockReset && !isSubmitting && form == EmptyForm && editingId.None?
        && error == old(error) && showSuccess == old(showSuccess)
      ensures !old(isSubmitting) && !IsMock(user.uid) ==>
        && r == Started && isSubmitting && form == old(form) && editingId == old(editingId)
        && error == NoError && !showSuccess
    {
      if isSubmitting {
        return Ignored;
      }
      if IsMock(user.uid) {
        form := EmptyForm;
        editingId := None;
        return MockReset;
      }
      isSubmitting := true;
      error := NoError;
      showSuccess := false;
      r := Started;
    }

    /** The save itself: an edit updates the edited document with the draft, a new record is
        added under the fresh document id `docId` with the code drawn from `fraction`. On
        success the form is reset and the success banner shown; either way the save is no
        longer in flight. */
    method FinishSubmit(store: ShipmentStore, now: Instant, docId: string, fraction: string, transportOk: bool)
      returns (ok: bool)
      requires store.Valid() && isSubmitting
      requires editingId.None? ==> docId !in Ids(store.docs)
      requires forall i :: 0 <= i < |fraction| ==> Base36(fraction[i])
      modifies this`isSubmitting, this`form, this`editingId, this`error, this`showSuccess, store
      ensures store.Valid() && !isSubmitting
      ensures var d := BuildDraft(old(form), user.uid, old(editingId).Some?,
                                  if old(editingId).Some? then Find(allShipments, old(editingId).value) else None, now);
        if old(editingId).Some? then
          && (ok <==> transportOk && old(editingId).value in Ids(old(store.docs)))
          && store.docs == (if ok then UpdateById(old(store.docs), old(editingId).value, Edit(d)) else old(store.docs))
        else
          && ok == transportOk
          && store.docs == (if ok then old(store.docs) + [NewRecord(docId, ShipmentCode(fraction), d)] else old(store.docs))
      ensures ok ==> form == EmptyForm && editingId.None? && showSuccess && error == old(error)
      ensures !ok ==> form == old(form) && editingId == old(editingId) && showSuccess == old(showSuccess) && error == SaveFailed
    {
      var editing := editingId.Some?;
      var current := if editing then Find(allShipments, editingId.value) else None;
      var d := BuildDraft(form, user.uid, editing, current, now);
      if editing {
        ok := store.Update(editingId.value, Edit(d), transportOk);
      } else {
        ok := store.Add(NewRecord(docId, ShipmentCode(fraction), d), transportOk);
      }
      if ok {
        form := EmptyForm;
        editingId := None;
        showSuccess := true;
      } else {
        error := SaveFailed;
      }
      isSubmitting := false;
    }

    // -- The tracking modal

    /** `handleTrackClick`: the previous listener is cancelled before the new one is
        installed, so listeners never stack. */
    method TrackClick(s: Shipment)
      requires Valid()
      modifies this`tracking, sub
      ensures Valid()
      ensures tracking == Some(s)
      ensures sub.handle.Some? && sub.live == {sub.handle.value} && sub.handle.value !in old(sub.live)
    {
      var _ := sub.Replace();
      tracking := Some(s);
    }

    /** A snapshot of the tracked document: a record that exists replaces the shown one; a
        missing one empties the modal but keeps the listener. */
    method OnSnapshot(store: ShipmentStore, id: string)
      requires Valid() && sub.handle.Some?
      modifies this`tracking
      ensures Valid()
      ensures tracking == Find(store.docs, id)
    {
      tracking := Find(store.docs, id);
    }

    /** `handleCloseModal`. */
    method CloseModal()
      requires Valid()
      modifies this`tracking, sub
      ensures Valid()
      ensures tracking.None? && sub.handle.None? && sub.live == {}
    {
      sub.Cancel();
      tracking := None;
    }
  }
}
