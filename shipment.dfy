/** The shipment record the three dashboards share, the field maps their `updateDoc`
    calls write into it, and the newest-first ordering every list uses. */
module Shipments {
  import opened Wrappers
  import opened Seqs
  import opened Text
  import opened Months

  /** The `status` values the code writes. */
  datatype Status = Pending | InTransit | Delivered | Received | Completed

  /** A point in time: the epoch milliseconds `new Date(x)` yields, and the local calendar
      month `getFullYear()`/`getMonth()` give for it (time zones are not modelled). */
  datatype Instant = Instant(millis: int, month: YearMonth)

  /** A reading of the driver's position; the coordinates are floating point in the code. */
  datatype Location = Location(lat: real, lng: real, at: Instant)

  /** Absent text fields are the empty string, which the code treats as absent (`|| ''`). */
  datatype Receiver = Receiver(name: string, phone: string, email: string, company: string, address: string)
  datatype Goods = Goods(name: string, kind: string, weight: string)
  datatype Driver = Driver(name: string, id: string, email: string, carPlate: string, phone: string, fee: string)

  /** A document of the `shipments` collection; `id` is the store's document id and
      `shipmentId` the operator-facing code. */
  datatype Shipment = Shipment(
    id: string,
    shipmentId: string,
    sender: string,
    status: Status,
    receiver: Receiver,
    goods: Goods,
    driver: Option<Driver>,
    currentDriverLocation: Option<Location>,
    signature: Option<string>,
    createdAt: Option<Instant>,
    claimedAt: Option<Instant>,
    deliveredAt: Option<Instant>,
    archived: bool,
    archivedByDriver: bool,
    archivedByDriverAt: Option<Instant>,
    unarchivedByDriverAt: Option<Instant>,
    deletedByDriver: bool,
    deletedByDriverAt: Option<Instant>,
    deletedByReceiver: bool,
    deletedByReceiverAt: Option<Instant>,
    paymentStatus: string,
    paidAt: Option<Instant>)

  /** The signed-in account: `uid`, `email`, and `displayName` ("" when unset). */
  datatype User = User(uid: string, email: string, displayName: string)

  /** `user.displayName || user.email`. */
  function NameOrEmail(u: User): string {
    if u.displayName != "" then u.displayName else u.email
  }

  /** Delivered, Completed or Received: the driver's "completed" side. */
  predicate IsFinished(st: Status) {
    st == Delivered || st == Completed || st == Received
  }

  /** Received or Completed: the receiver's and the sender's "completed" side. */
  predicate IsClosed(st: Status) {
    st == Received || st == Completed
  }

  /** `!s.driver || !s.driver.email`: no driver e-mail is bound. */
  predicate Unassigned(s: Shipment) {
    s.driver.None? || s.driver.value.email == ""
  }

  /** `s.driver?.email === email`. */
  predicate AssignedTo(s: Shipment, email: string) {
    s.driver.Some? && s.driver.value.email == email
  }

  /** The fields of the sender's form (src/pages/SenderDashboard.jsx:39-54). */
  datatype FormData = FormData(
    receiverName: string, receiverPhone: string, receiverEmail: string,
    receiverCompany: string, receiverAddress: string,
    driverName: string, driverId: string, driverEmail: string,
    driverCarPlate: string, driverPhone: string, driverFee: string,
    goodsName: string, goodsKind: string, goodsWeight: string)

  /** The record the sender's submit writes; `driver` is `None` when the `driver` key is
      left out of the written object (the stored driver is then kept). */
  datatype Draft = Draft(
    sender: string, status: Status, createdAt: Instant, archived: bool,
    receiver: Receiver, goods: Goods, location: Option<Location>,
    signature: Option<string>, driver: Option<Driver>)

  /** The field map of each `updateDoc` call of the dashboards. */
  datatype Patch =
      /** `updateShipmentStatus`: the status, the location when one is passed
          (`Some(None)` writes null), and the signature with `deliveredAt` when one is passed. */
    | SetStatus(status: Status, location: Option<Option<Location>>, signed: Option<(string, Instant)>)
      /** `startDriving`: status, `driver.email`, `driver.name`, `claimedAt`. */
    | Claim(email: string, name: string, at: Instant)
    | ArchiveForDriver(at: Instant)
    | UnarchiveForDriver(at: Instant)
    | DeleteForDriver(at: Instant)
    | MarkPaid(at: Instant)
      /** Receiver: `status: 'Received'` and a null location. */
    | MarkReceived
      /** Receiver: `status: 'Delivered'` only. */
    | MarkNotReceived
      /** Receiver hide/unhide: `receiver.email` alone. */
    | SetReceiverEmail(email: string)
    | DeleteForReceiver(at: Instant)
      /** Receiver save: `receiver.email` and `receiver.name`. */
    | SaveForReceiver(email: string, name: string)
      /** Sender archive, hide and unarchive. */
    | SetArchived(archived: bool)
      /** Sender complete: `status: 'Completed'` and a null location. */
    | Complete
      /** Sender edit: the whole draft. */
    | Edit(draft: Draft)

  const NoDriver := Driver("", "", "", "", "", "")

  /** A store update: the named fields take the patch's values, the others keep theirs.
      A field path such as `driver.email` writes into the existing map, creating it when absent. */
  function Apply(p: Patch, s: Shipment): (r: Shipment)
    ensures r.id == s.id && r.shipmentId == s.shipmentId
  {
    match p
    case SetStatus(st, loc, signed) =>
      var s1 := s.(status := st);
      var s2 := if loc.Some? then s1.(currentDriverLocation := loc.value) else s1;
      if signed.Some? then s2.(signature := Some(signed.value.0), deliveredAt := Some(signed.value.1)) else s2
    case Claim(email, name, at) =>
      s.(status := InTransit, driver := Some(s.driver.GetOr(NoDriver).(email := email, name := name)), claimedAt := Some(at))
    case ArchiveForDriver(at) => s.(archivedByDriver := true, archivedByDriverAt := Some(at))
    case UnarchiveForDriver(at) => s.(archivedByDriver := false, unarchivedByDriverAt := Some(at))
    case DeleteForDriver(at) => s.(deletedByDriver := true, deletedByDriverAt := Some(at))
    case MarkPaid(at) => s.(paymentStatus := "paid", paidAt := Some(at))
    case MarkReceived => s.(status := Received, currentDriverLocation := None)
    case MarkNotReceived => s.(status := Delivered)
    case SetReceiverEmail(email) => s.(receiver := s.receiver.(email := email))
    case DeleteForReceiver(at) => s.(deletedByReceiver := true, deletedByReceiverAt := Some(at))
    case SaveForReceiver(email, name) => s.(receiver := s.receiver.(email := email, name := name))
    case SetArchived(b) => s.(archived := b)
    case Complete => s.(status := Completed, currentDriverLocation := None)
    case Edit(d) =>
      s.(sender := d.sender, status := d.status, createdAt := Some(d.createdAt), archived := d.archived,
         receiver := d.receiver, goods := d.goods, currentDriverLocation := d.location,
         signature := d.signature, driver := if d.driver.Some? then d.driver else s.driver)
  }

  /** `addDoc`: the draft plus the document id and code; every other field is unset. */
  function NewRecord(docId: string, code: string, d: Draft): Shipment {
    Shipment(docId, code, d.sender, d.status, d.receiver, d.goods, d.driver, d.location,
             d.signature, Some(d.createdAt), None, None, d.archived, false, None, None,
             false, None, false, None, "", None)
  }

  // ---- Fees -------------------------------------------------------------------------

  predicate IsDigit(c: char) {
    '0' <= c <= '9'
  }

  /** The longest prefix of decimal digits. */
  function LeadingDigits(s: string): (r: string)
    ensures |r| <= |s| && r == s[..|r|]
    ensures forall i :: 0 <= i < |r| ==> IsDigit(r[i])
  {
    if s == [] || !IsDigit(s[0]) then [] else [s[0]] + LeadingDigits(s[1..])
  }

  function DigitsValue(ds: string): nat {
    if ds == [] then 0
    else
      var d := ds[|ds| - 1] as int - '0' as int;
      DigitsValue(ds[..|ds| - 1]) * 10 + (if 0 <= d <= 9 then d else 0)
  }

  function SkipWhitespace(s: string): (r: string)
    ensures |r| <= |s| && r == s[|s| - |r|..]
  {
    if s != [] && IsWhitespace(s[0]) then SkipWhitespace(s[1..]) else s
  }

  /** `parseFloat(fee) || 0` on integer amounts: white space, an optional sign, then the
      integer part; no digit at all is `NaN`, which `|| 0` turns into 0. */
  function FeeValue(fee: string): int {
    var t := SkipWhitespace(fee);
    if t != [] && t[0] == '-' then -(DigitsValue(LeadingDigits(t[1..])) as int)
    else if t != [] && t[0] == '+' then DigitsValue(LeadingDigits(t[1..]))
    else DigitsValue(LeadingDigits(t))
  }

  /** A fee with no digit at all parses to `NaN`, which counts as 0. */
  lemma UnparseableFeeIsZero(fee: string)
    requires forall i :: 0 <= i < |fee| ==> !IsDigit(fee[i])
    ensures FeeValue(fee) == 0
  {
    var t := SkipWhitespace(fee);
    if t != [] {
      assert t[0] == fee[|fee| - |t|];
      assert LeadingDigits(t) == [];
      var u := t[1..];
      if u != [] {
        assert u[0] == fee[|fee| - |t| + 1];
      }
      assert LeadingDigits(u) == [];
    }
  }

  /** `parseFloat(job.driver?.fee) || 0`. */
  function JobFee(s: Shipment): int {
    match s.driver
    case None => 0
    case Some(d) => FeeValue(d.fee)
  }

  // ---- Newest-first ordering -----------------------------------------------------------

  /** The date a list is ordered by. */
  datatype TimeField = CreatedAt | DeliveredAt

  /** `new Date(x || 0)` in milliseconds: an absent date sorts as the epoch. */
  function SortKey(s: Shipment, f: TimeField): int {
    var t := if f == CreatedAt then s.createdAt else s.deliveredAt;
    match t
    case Some(i) => i.millis
    case None => 0
  }

  /** Each element is at least as recent as the next. */
  predicate NewestFirst(s: seq<Shipment>, f: TimeField) {
    forall i :: 0 < i < |s| ==> SortKey(s[i - 1], f) >= SortKey(s[i], f)
  }

  function InsertNewest(x: Shipment, s: seq<Shipment>, f: TimeField): (r: seq<Shipment>)
    requires NewestFirst(s, f)
    ensures NewestFirst(r, f)
    ensures multiset(r) == multiset(s) + multiset{x}
    ensures |r| == |s| + 1
    ensures r[0] == x || (s != [] && r[0] == s[0])
  {
    if s == [] then [x]
    else if SortKey(x, f) >= SortKey(s[0], f) then [x] + s
    else
      assert s == [s[0]] + s[1..];
      [s[0]] + InsertNewest(x, s[1..], f)
  }

  /** `.sort((a, b) => new Date(b.f || 0) - new Date(a.f || 0))`: the same records,
      newest first. */
  function SortNewest(s: seq<Shipment>, f: TimeField): (r: seq<Shipment>)
    ensures NewestFirst(r, f)
    ensures multiset(r) == multiset(s)
    ensures |r| == |s|
  {
    if s == [] then []
    else
      assert s == [s[0]] + s[1..];
      InsertNewest(s[0], SortNewest(s[1..], f), f)
  }

  /** Newest-first holds between any two positions, not only neighbours. */
  lemma {:induction false} NewestFirstPairwise(s: seq<Shipment>, f: TimeField, i: int, j: int)
    requires NewestFirst(s, f)
    requires 0 <= i <= j < |s|
    ensures SortKey(s[i], f) >= SortKey(s[j], f)
  {
    if i < j {
      NewestFirstPairwise(s, f, i, j - 1);
    }
  }
}
