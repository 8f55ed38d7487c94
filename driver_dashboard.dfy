/** The driver's dashboard (src/pages/DriverDashboard.jsx): the job list built from two
    queries, the active job, the three tabs and their search, the manual lookup by code,
    and the handlers that write to the store. */
module DriverDashboard {
  import opened Wrappers
  import opened Seqs
  import opened Text
  import opened Shipments
  import opened Store

  // ---- The job list -------------------------------------------------------------------

  /** `where('driver.email', '==', user.email)`. */
  function AssignedQuery(docs: seq<Shipment>, email: string): seq<Shipment> {
    Filter(docs, (s: Shipment) => AssignedTo(s, email))
  }

  /** `where('status', '==', 'Pending')`. */
  function PendingQuery(docs: seq<Shipment>): seq<Shipment> {
    Filter(docs, (s: Shipment) => s.status == Pending)
  }

  /** The pending jobs no driver holds and the driver has not hidden. */
  predicate Open(s: Shipment) {
    Unassigned(s) && !s.archivedByDriver
  }

  function OpenJobs(pending: seq<Shipment>): seq<Shipment> {
    Filter(pending, Open)
  }

  /** The `forEach` that pushes each open job onto the assigned ones unless a job with
      its id is already there (the check runs against the growing list). */
  function MergeInto(acc: seq<Shipment>, pool: seq<Shipment>): seq<Shipment>
    decreases |pool|
  {
    if pool == [] then acc
    else
      var merged := MergeInto(acc, pool[..|pool| - 1]);
      var last := pool[|pool| - 1];
      if last.id in Ids(merged) then merged else merged + [last]
  }

  /** The assigned jobs come first and unchanged; every job is an assigned or an open
      one; every open job's id is present; and no id appears twice. */
  lemma {:induction false} MergeShape(acc: seq<Shipment>, pool: seq<Shipment>)
    ensures acc <= MergeInto(acc, pool)
    ensures forall x :: x in MergeInto(acc, pool) ==> x in acc || x in pool
    ensures forall x :: x in pool ==> x.id in Ids(MergeInto(acc, pool))
    ensures UniqueIds(acc) ==> UniqueIds(MergeInto(acc, pool))
  {
    if pool != [] {
      var init, last := pool[..|pool| - 1], pool[|pool| - 1];
      assert pool == init + [last];
      MergeShape(acc, init);
      var merged := MergeInto(acc, init);
      if last.id !in Ids(merged) && UniqueIds(merged) {
        IdsAt(merged, last.id);
        assert UniqueIds(merged + [last]);
      }
      assert last.id in Ids(MergeInto(acc, pool)) by {
        assert last.id in Ids(merged) || last in merged + [last];
      }
    }
  }

  /** On an id clash the assigned copy wins: a merged job sharing an id with an assigned
      job is that assigned job. */
  lemma MergeKeepsAssignedCopy(acc: seq<Shipment>, pool: seq<Shipment>, x: Shipment, a: Shipment)
    requires UniqueIds(acc) && a in acc && x in MergeInto(acc, pool) && x.id == a.id
    ensures x == a
  {
    MergeShape(acc, pool);
    var m := MergeInto(acc, pool);
    assert a in m;
    SameIdSameDoc(m, x, a);
  }

  /** The merge loop (lines 78-83). */
  method CombineJobs(own: seq<Shipment>, pool: seq<Shipment>) returns (combined: seq<Shipment>)
    ensures combined == MergeInto(own, pool)
  {
    combined := own;
    for i := 0 to |pool|
      invariant combined == MergeInto(own, pool[..i])
    {
      assert pool[..i + 1][..i] == pool[..i];
      if pool[i].id !in Ids(combined) {
        combined := combined + [pool[i]];
      }
    }
    assert pool[..|pool|] == pool;
  }

  /** The merged list before sorting. */
  function Merged(docs: seq<Shipment>, email: string): seq<Shipment> {
    MergeInto(AssignedQuery(docs, email), OpenJobs(PendingQuery(docs)))
  }

  /** The list the dashboard shows: the merge, newest `createdAt` first. */
  function JobList(docs: seq<Shipment>, email: string): seq<Shipment> {
    SortNewest(Merged(docs, email), CreatedAt)
  }

  /** The merge holds exactly the driver's own jobs and the open pending ones, each once. */
  lemma MergedContents(docs: seq<Shipment>, email: string)
    requires UniqueIds(docs)
    ensures forall x :: x in Merged(docs, email) <==>
      x in docs && (AssignedTo(x, email) || (x.status == Pending && Open(x)))
    ensures UniqueIds(Merged(docs, email))
  {
    var a := AssignedQuery(docs, email);
    var p := OpenJobs(PendingQuery(docs));
    var m := MergeInto(a, p);
    MergeShape(a, p);
    FilterKeepsUniqueIds(docs, (s: Shipment) => AssignedTo(s, email));
    assert forall x :: x in a <==> x in docs && AssignedTo(x, email);
    assert forall x :: x in p <==> x in docs && x.status == Pending && Open(x);
    forall x | x in p ensures x in m {
      assert x.id in Ids(m);
      var y :| y in m && y.id == x.id;
      assert y in docs;
      SameIdSameDoc(docs, x, y);
    }
  }

  /** The job list holds exactly the driver's own jobs and the open pending ones, each
      once, newest first. */
  lemma JobListContents(docs: seq<Shipment>, email: string)
    requires UniqueIds(docs)
    ensures forall x :: x in JobList(docs, email) <==>
      x in docs && (AssignedTo(x, email) || (x.status == Pending && Open(x)))
    ensures UniqueIds(JobList(docs, email))
    ensures NewestFirst(JobList(docs, email), CreatedAt)
  {
    var m := Merged(docs, email);
    MergedContents(docs, email);
    PermutationMembers(JobList(docs, email), m);
    SortKeepsUniqueIds(m, CreatedAt);
  }

  /** The job `activeJob` tracks. */
  predicate ActiveFor(s: Shipment, email: string) {
    s.status == InTransit && AssignedTo(s, email)
  }

  /** The index `find` stops at: the first job in transit with this driver. */
  function FirstActiveIndex(jobs: seq<Shipment>, email: string): (r: Option<nat>)
    ensures r.Some? ==> r.value < |jobs| && ActiveFor(jobs[r.value], email)
    ensures r.Some? ==> forall i :: 0 <= i < r.value ==> !ActiveFor(jobs[i], email)
    ensures r.None? ==> forall i :: 0 <= i < |jobs| ==> !ActiveFor(jobs[i], email)
  {
    if jobs == [] then None
    else if ActiveFor(jobs[0], email) then Some(0)
    else
      match FirstActiveIndex(jobs[1..], email)
      case None => None
      case Some(k) => Some(k + 1)
  }

  /** `sortedJobs.find(...) || null`. */
  function ActiveJob(jobs: seq<Shipment>, email: string): (r: Option<Shipment>)
    ensures r.Some? ==> r.value in jobs && ActiveFor(r.value, email)
    ensures r.None? <==> forall j :: j in jobs ==> !ActiveFor(j, email)
  {
    match FirstActiveIndex(jobs, email)
    case None => None
    case Some(k) => Some(jobs[k])
  }

  // ---- Tabs and search ---------------------------------------------------------------

  datatype Tab = PendingJobs | CompletedJobs | ArchivedJobs

  predicate InPendingTab(s: Shipment) {
    !s.archivedByDriver && !s.deletedByDriver && !IsFinished(s.status)
  }

  predicate InCompletedTab(s: Shipment) {
    !s.archivedByDriver && !s.deletedByDriver && IsFinished(s.status)
  }

  predicate InArchivedTab(s: Shipment) {
    s.archivedByDriver && !s.deletedByDriver
  }

  function PendingTab(jobs: seq<Shipment>): seq<Shipment> { Filter(jobs, InPendingTab) }
  function CompletedTab(jobs: seq<Shipment>): seq<Shipment> { Filter(jobs, InCompletedTab) }
  function ArchivedTab(jobs: seq<Shipment>): seq<Shipment> { Filter(jobs, InArchivedTab) }

  predicate DeletedByDriver(s: Shipment) {
    s.deletedByDriver
  }

  /** The tabs are pairwise disjoint, a job deleted by the driver is in none, and every
      other job of the list is in one. */
  lemma TabsDisjoint(jobs: seq<Shipment>)
    ensures forall x :: x in jobs && !x.deletedByDriver ==>
      (x in PendingTab(jobs)) || (x in CompletedTab(jobs)) || (x in ArchivedTab(jobs))
    ensures forall x :: !(x in PendingTab(jobs) && x in CompletedTab(jobs))
    ensures forall x :: !(x in PendingTab(jobs) && x in ArchivedTab(jobs))
    ensures forall x :: !(x in CompletedTab(jobs) && x in ArchivedTab(jobs))
    ensures forall x: Shipment :: x.deletedByDriver ==>
      x !in PendingTab(jobs) && x !in CompletedTab(jobs) && x !in ArchivedTab(jobs)
  {
  }

  /** The tab sizes and the number of deleted jobs add up to the length of the list. */
  lemma {:induction false} TabCounts(jobs: seq<Shipment>)
    ensures |PendingTab(jobs)| + |CompletedTab(jobs)| + |ArchivedTab(jobs)|
      + |Filter(jobs, DeletedByDriver)| == |jobs|
  {
    if jobs != [] {
      var t := jobs[1..];
      TabCounts(t);
      assert PendingTab(jobs) == (if InPendingTab(jobs[0]) then [jobs[0]] else []) + PendingTab(t);
      assert CompletedTab(jobs) == (if InCompletedTab(jobs[0]) then [jobs[0]] else []) + CompletedTab(t);
      assert ArchivedTab(jobs) == (if InArchivedTab(jobs[0]) then [jobs[0]] else []) + ArchivedTab(t);
      assert Filter(jobs, DeletedByDriver)
        == (if DeletedByDriver(jobs[0]) then [jobs[0]] else []) + Filter(t, DeletedByDriver);
    }
  }

  /** The tab a looked-up job opens: completed for a finished status, else pending. */
  function TabFor(st: Status): (t: Tab)
    ensures t == CompletedJobs <==> IsFinished(st)
    ensures t != ArchivedJobs
  {
    if st == Delivered || st == Completed || st == Received then CompletedJobs else PendingJobs
  }

  /** One search field: `field?.toLowerCase().includes(searchLower)`. */
  predicate FieldMatches(field: string, term: string) {
    Contains(Lower(field), Lower(term))
  }

  predicate MatchesSearch(job: Shipment, term: string) {
    FieldMatches(job.shipmentId, term) || FieldMatches(job.receiver.name, term)
    || FieldMatches(job.receiver.address, term) || FieldMatches(job.goods.name, term)
  }

  /** `filteredOngoingJobs` and `filteredCompletedJobs`: a blank term (empty after trim)
      keeps the tab; otherwise the untrimmed, lower-cased term selects, in order, the jobs
      one of whose four fields contains it. */
  function SearchJobs(jobs: seq<Shipment>, term: string): (r: seq<Shipment>)
    ensures IsBlank(term) ==> r == jobs
    ensures !IsBlank(term) ==> forall x :: x in r <==> x in jobs && MatchesSearch(x, term)
    ensures |r| <= |jobs|
    ensures Subsequence(r, jobs)
  {
    if IsBlank(term) then
      SubsequenceOfItself(jobs);
      jobs
    else
      FilterKeepsOrder(jobs, (j: Shipment) => MatchesSearch(j, term));
      Filter(jobs, (j: Shipment) => MatchesSearch(j, term))
  }

  // ---- Manual lookup -----------------------------------------------------------------

  /** What `handleFindShipment` decides about the first match of the code. */
  datatype Lookup =
    | NotFound
    | AlreadyListed(tab: Tab)
    | Mine(job: Shipment, tab: Tab)
    | Claimable(job: Shipment)
    | Taken(status: Status)
    | LookupFailed

  /** Lines 273-318: no match; a job already in the list (its tab from the listed copy);
      the driver's own job; any Pending job, whoever it names; anything else. */
  function Classify(matches: seq<Shipment>, listed: seq<Shipment>, email: string): (r: Lookup)
    ensures r.NotFound? <==> matches == []
    ensures !r.LookupFailed?
    ensures r.AlreadyListed? <==> matches != [] && matches[0].id in Ids(listed)
    ensures r.AlreadyListed? ==>
      Find(listed, matches[0].id).Some? && r.tab == TabFor(Find(listed, matches[0].id).value.status)
    ensures r.Mine? <==> matches != [] && matches[0].id !in Ids(listed) && AssignedTo(matches[0], email)
    ensures r.Mine? ==> r.job == matches[0] && r.tab == TabFor(matches[0].status)
    ensures r.Claimable? <==>
      && matches != [] && matches[0].id !in Ids(listed)
      && !AssignedTo(matches[0], email) && matches[0].status == Pending
    ensures r.Claimable? ==> r.job == matches[0] && r.job.status == Pending
    ensures r.Taken? ==> matches != [] && r.status == matches[0].status && r.status != Pending
  {
    if matches == [] then NotFound
    else
      var job := matches[0];
      match Find(listed, job.id)
      case Some(existing) => AlreadyListed(TabFor(existing.status))
      case None =>
        if AssignedTo(job, email) then Mine(job, TabFor(job.status))
        else if job.status == Pending then Claimable(job)
        else Taken(job.status)
  }

  /** A Pending job that already names another driver is still offered for claiming. */
  lemma PendingOfAnotherDriverIsClaimable(job: Shipment, listed: seq<Shipment>, email: string)
    requires job.id !in Ids(listed) && job.status == Pending
    requires job.driver.Some? && job.driver.value.email != "" && job.driver.value.email != email
    ensures Classify([job], listed, email) == Claimable(job)
  {
  }

  // ---- Writes ------------------------------------------------------------------------

  /** `updateShipmentStatus` writes the status, the location only when one is passed,
      and the signature together with `deliveredAt` only when a signature is passed. */
  lemma StatusWrite(s: Shipment, st: Status, loc: Option<Option<Location>>, signed: Option<(string, Instant)>)
    ensures var r := Apply(SetStatus(st, loc, signed), s);
      && r.status == st
      && r.currentDriverLocation == (if loc.Some? then loc.value else s.currentDriverLocation)
      && r.signature == (if signed.Some? then Some(signed.value.0) else s.signature)
      && r.deliveredAt == (if signed.Some? then Some(signed.value.1) else s.deliveredAt)
      && r.(status := s.status, currentDriverLocation := s.currentDriverLocation,
            signature := s.signature, deliveredAt := s.deliveredAt) == s
  {
  }

  /** A claim writes the status, the driver's e-mail and name and `claimedAt`, keeps the
      rest of any stored driver block, and makes the job the driver's active one. */
  lemma ClaimWrite(s: Shipment, u: User, at: Instant)
    ensures Apply(Claim(u.email, NameOrEmail(u), at), s).status == InTransit
    ensures ActiveFor(Apply(Claim(u.email, NameOrEmail(u), at), s), u.email)
    ensures Apply(Claim(u.email, NameOrEmail(u), at), s).driver.value.name == NameOrEmail(u)
    ensures s.driver.Some? ==> Apply(Claim(u.email, NameOrEmail(u), at), s).driver.value.fee == s.driver.value.fee
    ensures Apply(Claim(u.email, NameOrEmail(u), at), s).(status := s.status, driver := s.driver, claimedAt := s.claimedAt) == s
  {
  }

  /** The signature write moves a job the driver still shows out of the pending tab into
      the completed one, and it is no longer anybody's active job. */
  lemma DeliveryWrite(s: Shipment, signature: string, at: Instant, email: string)
    requires InPendingTab(s)
    ensures InCompletedTab(Apply(SetStatus(Delivered, Some(None), Some((signature, at))), s))
    ensures !InPendingTab(Apply(SetStatus(Delivered, Some(None), Some((signature, at))), s))
    ensures !ActiveFor(Apply(SetStatus(Delivered, Some(None), Some((signature, at))), s), email)
  {
  }

  /** Archive, unarchive, delete and mark-paid each write their own flag and timestamp and
      nothing else; archive moves a completed job to the archived tab, unarchive brings it
      back, delete takes a job out of every tab, and mark-paid moves none. */
  lemma DriverFlagWrites(s: Shipment, at: Instant, at2: Instant)
    ensures Apply(ArchiveForDriver(at), s).(archivedByDriver := s.archivedByDriver, archivedByDriverAt := s.archivedByDriverAt) == s
    ensures Apply(UnarchiveForDriver(at), s).(archivedByDriver := s.archivedByDriver, unarchivedByDriverAt := s.unarchivedByDriverAt) == s
    ensures Apply(DeleteForDriver(at), s).(deletedByDriver := s.deletedByDriver, deletedByDriverAt := s.deletedByDriverAt) == s
    ensures Apply(MarkPaid(at), s).(paymentStatus := s.paymentStatus, paidAt := s.paidAt) == s
    ensures InCompletedTab(s) ==> InArchivedTab(Apply(ArchiveForDriver(at), s))
    ensures InCompletedTab(s) ==> InCompletedTab(Apply(UnarchiveForDriver(at2), Apply(ArchiveForDriver(at), s)))
    ensures var d := Apply(DeleteForDriver(at), s); !InPendingTab(d) && !InCompletedTab(d) && !InArchivedTab(d)
    ensures var m := Apply(MarkPaid(at), s);
      InPendingTab(m) == InPendingTab(s) && InCompletedTab(m) == InCompletedTab(s) && InArchivedTab(m) == InArchivedTab(s)
  {
  }

  /** The job `startDriving` shows as active before the write returns: status In Transit
      and a driver block of e-mail and name only. */
  function Optimistic(job: Shipment, u: User): (r: Shipment)
    ensures ActiveFor(r, u.email) && r.id == job.id
  {
    job.(status := InTransit, driver := Some(NoDriver.(email := u.email, name := NameOrEmail(u))))
  }

  /** The message the manual lookup shows. */
  datatype ManualError = NoManualError | NotFoundError | TakenError(status: Status) | GenericError

  class DriverSession {
    const user: User
    var allJobs: seq<Shipment>
    var activeJob: Option<Shipment>
    var claimable: Option<Shipment>
    var signing: Option<Shipment>
    var sigError: bool
    var manualInput: string
    var manualError: ManualError
    var activeTab: Tab
    /** The page-level `error` banner has been set. */
    var failed: bool

    /** A job offered for claiming is always a Pending one. */
    ghost predicate Valid()
      reads this
    {
      claimable.Some? ==> claimable.value.status == Pending
    }

    constructor (u: User)
      ensures Valid() && user == u && allJobs == [] && activeJob.None? && claimable.None?
      ensures signing.None? && !sigError && manualInput == "" && manualError == NoManualError
      ensures activeTab == PendingJobs && !failed
    {
      user := u;
      allJobs := [];
      activeJob := None;
      claimable := None;
      signing := None;
      sigError := false;
      manualInput := "";
      manualError := NoManualError;
      activeTab := PendingJobs;
      failed := false;
    }

    /** The snapshot listener: without an e-mail nothing is queried; when the pending
        query fails the list is kept and the banner is set; otherwise the list and the
        active job are rebuilt from the store. */
    method Refresh(store: ShipmentStore, pendingOk: bool)
      modifies this`allJobs, this`activeJob, this`failed
      ensures user.email == "" ==> allJobs == old(allJobs) && activeJob == old(activeJob) && failed == old(failed)
      ensures user.email != "" && !pendingOk ==> allJobs == old(allJobs) && activeJob == old(activeJob) && failed
      ensures user.email != "" && pendingOk ==>
        allJobs == JobList(store.docs, user.email) && activeJob == ActiveJob(allJobs, user.email) && failed == old(failed)
    {
      if user.email == "" {
        return;
      }
      if !pendingOk {
        failed := true;
        return;
      }
      var own := AssignedQuery(store.docs, user.email);
      var combined := CombineJobs(own, OpenJobs(PendingQuery(store.docs)));
      allJobs := SortNewest(combined, CreatedAt);
      activeJob := ActiveJob(allJobs, user.email);
    }

    /** `startDriving`: refused with no write while another job is active; otherwise the
        job becomes active at once, the claim is written, and a failed write resets the
        active job and sets the banner. */
    method StartDriving(store: ShipmentStore, job: Shipment, now: Instant, transportOk: bool) returns (ok: bool)
      requires store.Valid() && job.status == Pending
      modifies this`activeJob, this`failed, store
      ensures store.Valid()
      ensures old(activeJob).Some? ==>
        !ok && store.docs == old(store.docs) && activeJob == old(activeJob) && failed == old(failed)
      ensures old(activeJob).None? ==> ok == (transportOk && job.id in Ids(old(store.docs)))
      ensures old(activeJob).None? ==>
        store.docs == if ok then UpdateById(old(store.docs), job.id, Claim(user.email, NameOrEmail(user), now)) else old(store.docs)
      ensures old(activeJob).None? ==>
        activeJob == (if ok then Some(Optimistic(job, user)) else None) && failed == (old(failed) || !ok)
    {
      if activeJob.Some? {
        return false;
      }
      activeJob := Some(Optimistic(job, user));
      ok := store.Update(job.id, Claim(user.email, NameOrEmail(user), now), transportOk);
      if !ok {
        failed := true;
        activeJob := None;
      }
    }

    /** `handleClaimJob`: the offer is withdrawn while the claim runs and comes back when
        it fails. */
    method ClaimJob(store: ShipmentStore, now: Instant, transportOk: bool) returns (ok: bool)
      requires store.Valid() && Valid()
      modifies this`claimable, this`activeJob, this`failed, store
      ensures store.Valid() && Valid()
      ensures old(claimable).None? ==>
        !ok && store.docs == old(store.docs) && claimable.None? && activeJob == old(activeJob) && failed == old(failed)
      ensures old(claimable).Some? ==> claimable == (if ok then None else old(claimable))
      ensures old(claimable).Some? ==> failed == (old(failed) || (old(activeJob).None? && !ok))
      ensures old(claimable).Some? && old(activeJob).Some? ==>
        !ok && store.docs == old(store.docs) && activeJob == old(activeJob)
      ensures old(claimable).Some? && old(activeJob).None? ==>
        var job := old(claimable).value;
        && ok == (transportOk && job.id in Ids(old(store.docs)))
        && store.docs == (if ok then UpdateById(old(store.docs), job.id, Claim(user.email, NameOrEmail(user), now)) else old(store.docs))
        && activeJob == (if ok then Some(Optimistic(job, user)) else None)
    {
      if claimable.None? {
        return false;
      }
      var job := claimable.value;
      claimable := None;
      ok := StartDriving(store, job, now, transportOk);
      if !ok {
        claimable := Some(job);
      }
    }

    /** The Deliver button, offered only on the active job while it is In Transit. */
    method MarkAsDelivered(job: Shipment)
      requires job.status == InTransit && activeJob.Some? && activeJob.value.id == job.id
      modifies this`signing, this`sigError
      ensures signing == Some(job) && !sigError
    {
      sigError := false;
      signing := Some(job);
    }

    /** `handleSignatureSave`; the pad is only shown for a job without a signature. An
        empty pad is refused with no write; a stored delivery clears the active job and
        closes the modal; a failed one keeps both and reports it. */
    method SignatureSave(store: ShipmentStore, padEmpty: bool, image: string, now: Instant, transportOk: bool)
      returns (ok: bool)
      requires store.Valid() && signing.Some? && signing.value.signature.None?
      modifies this`sigError, this`activeJob, this`signing, store
      ensures store.Valid()
      ensures padEmpty ==>
        !ok && sigError && store.docs == old(store.docs) && activeJob == old(activeJob) && signing == old(signing)
      ensures !padEmpty ==> ok == (transportOk && old(signing).value.id in Ids(old(store.docs)))
      ensures !padEmpty ==> store.docs == if ok then
          UpdateById(old(store.docs), old(signing).value.id, SetStatus(Delivered, Some(None), Some((image, now))))
        else old(store.docs)
      ensures !padEmpty && ok ==> activeJob.None? && signing.None? && !sigError
      ensures !padEmpty && !ok ==> sigError && activeJob == old(activeJob) && signing == old(signing)
    {
      sigError := false;
      if padEmpty {
        sigError := true;
        return false;
      }
      ok := store.Update(signing.value.id, SetStatus(Delivered, Some(None), Some((image, now))), transportOk);
      if ok {
        activeJob := None;
        signing := None;
      } else {
        sigError := true;
      }
    }

    /** `handleFindShipment`. */
    method FindShipment(store: ShipmentStore, queryOk: bool) returns (outcome: Lookup)
      requires Valid()
      modifies this`allJobs, this`claimable, this`manualInput, this`manualError, this`activeTab
      ensures Valid()
      ensures !queryOk ==>
        && outcome == LookupFailed && manualError == GenericError
        && allJobs == old(allJobs) && claimable == old(claimable)
        && manualInput == old(manualInput) && activeTab == old(activeTab)
      ensures queryOk ==> outcome == Classify(CodeQuery(store.docs, old(manualInput)), old(allJobs), user.email)
      ensures allJobs == if outcome.Mine? then [outcome.job] + old(allJobs) else old(allJobs)
      ensures claimable == if outcome.Claimable? then Some(outcome.job) else old(claimable)
      ensures activeTab == match outcome
        case AlreadyListed(t) => t
        case Mine(_, t) => t
        case _ => old(activeTab)
      ensures manualInput == if outcome.AlreadyListed? || outcome.Mine? || outcome.Claimable? then "" else old(manualInput)
      ensures manualError == match outcome
        case NotFound => NotFoundError
        case Taken(st) => TakenError(st)
        case LookupFailed => GenericError
        case _ => NoManualError
    {
      manualError := NoManualError;
      if !queryOk {
        manualError := GenericError;
        return LookupFailed;
      }
      outcome := Classify(CodeQuery(store.docs, manualInput), allJobs, user.email);
      match outcome
      case NotFound =>
        manualError := NotFoundError;
      case AlreadyListed(t) =>
        manualInput := "";
        activeTab := t;
      case Mine(job, t) =>
        allJobs := [job] + allJobs;
        manualInput := "";
        activeTab := t;
      case Claimable(job) =>
        claimable := Some(job);
        manualInput := "";
      case Taken(st) =>
        manualError := TakenError(st);
      case LookupFailed =>
    }

    /** `handleArchiveShipment`. */
    method Archive(store: ShipmentStore, id: string, now: Instant, transportOk: bool) returns (ok: bool)
      requires store.Valid()
      modifies this`failed, store
      ensures store.Valid()
      ensures ok == (transportOk && id in Ids(old(store.docs)))
      ensures store.docs == if ok then UpdateById(old(store.docs), id, ArchiveForDriver(now)) else old(store.docs)
      ensures failed == (old(failed) || !ok)
    {
      ok := store.Update(id, ArchiveForDriver(now), transportOk);
      if !ok {
        failed := true;
      }
    }

    /** `handleUnarchiveShipment`. */
    method Unarchive(store: ShipmentStore, id: string, now: Instant, transportOk: bool) returns (ok: bool)
      requires store.Valid()
      modifies this`failed, store
      ensures store.Valid()
      ensures ok == (transportOk && id in Ids(old(store.docs)))
      ensures store.docs == if ok then UpdateById(old(store.docs), id, UnarchiveForDriver(now)) else old(store.docs)
      ensures failed == (old(failed) || !ok)
    {
      ok := store.Update(id, UnarchiveForDriver(now), transportOk);
      if !ok {
        failed := true;
      }
    }

    /** `handleDeletePermanently`: nothing happens unless the dialog is confirmed; the
        record stays in the store, flagged. */
    method DeletePermanently(store: ShipmentStore, id: string, confirmed: bool, now: Instant, transportOk: bool)
      returns (ok: bool)
      requires store.Valid()
      modifies this`failed, store
      ensures store.Valid()
      ensures ok == (confirmed && transportOk && id in Ids(old(store.docs)))
      ensures store.docs == if ok then UpdateById(old(store.docs), id, DeleteForDriver(now)) else old(store.docs)
      ensures failed == (old(failed) || (confirmed && !ok))
    {
      if !confirmed {
        return false;
      }
      ok := store.Update(id, DeleteForDriver(now), transportOk);
      if !ok {
        failed := true;
      }
    }

    /** `handleMarkAsPaid`, offered while the payment status is unset or pending. */
    method MarkAsPaid(store: ShipmentStore, id: string, confirmed: bool, now: Instant, transportOk: bool)
      returns (ok: bool)
      requires store.Valid()
      modifies this`failed, store
      ensures store.Valid()
      ensures ok == (confirmed && transportOk && id in Ids(old(store.docs)))
      ensures store.docs == if ok then UpdateById(old(store.docs), id, MarkPaid(now)) else old(store.docs)
      ensures failed == (old(failed) || (confirmed && !ok))
    {
      if !confirmed {
        return false;
      }
      ok := store.Update(id, MarkPaid(now), transportOk);
      if !ok {
        failed := true;
      }
    }
  }
}
