# LogiLinQ shipment core, in Dafny

LogiLinQ is a React single-page application. Senders, receivers and drivers work on one
shared collection of shipment documents in Firestore. This project models the core of the
three dashboards that read and write those documents:

- **The shipment record and its writes.** `Shipments` (shipment.dfy) defines the record and
  every partial update the dashboards send (`Patch`, applied by `Apply`). `Store`
  (store.dfy) defines the collection as a class whose `Update`, `Add` and `Delete` behave
  like `updateDoc`, `addDoc` and `deleteDoc`:
  - an update of a missing document fails;
  - a delete always succeeds;
  - a failed transport (`transportOk == false`) leaves the collection unchanged.
- **The driver dashboard** (driver_dashboard.dfy):
  - the merge of the two listener queries into one newest-first job list;
  - the active job;
  - the three tabs and their search;
  - the manual lookup and its classification;
  - the claim, start, deliver-with-signature, archive, unarchive, delete and mark-paid
    flows, each with the guard the page renders around its button.
- **The receiver dashboard** (receiver_dashboard.dfy):
  - the active and archived lists;
  - the "hide" that re-tags the receiver address;
  - the live-tracking modal with its single listener (`Tracking.Subscription`);
  - the manual lookup;
  - received, not-received, hide, unhide, delete and save-to-list.
- **The sender dashboard** (sender_dashboard.dfy):
  - building the record from the form, for a new record and for an edit;
  - the shipment code;
  - the two-click confirmation with its 5-second expiry, modelled as an explicit timer
    event;
  - the submit guard;
  - archive, delete, unarchive, complete, and the tracking modal.
- **The sender's tabs:**
  - the three-step form (overview_tab.dfy);
  - the active and archived lists with their search (shipments_tab.dfy,
    archived_tab.dfy).
- **The statistics:**
  - the sender's monthly recap (monthly_recap.dfy);
  - the receiver's recap (receiver_recap.dfy);
  - the driver's revenue tab (revenue_tab.dfy).

  All of them share the twelve-month window and its bucket counting (months.dfy,
  charts.dfy).

Firestore is modelled as a sequence of documents with unique ids. Each network call is a
method that takes a `transportOk` flag standing for "the promise resolved". Clocks are
`Instant` values passed in. Timers are explicit events (`SenderSession.Expire`). A listener
is a handle in `Tracking.Subscription`.

Where the code and its written description differ, the model follows the code:

- **No transition guards.** Nothing in the stores checks that a status change follows the
  Pending → In Transit → Delivered → Received/Completed order. Only the buttons a page
  draws restrict transitions, so those render conditions are the `requires` of the
  session methods.
- **The claim is not a compare-and-set.** A claim overwrites the driver unconditionally.
  The lookup also offers any Pending job for claiming, even one pre-assigned to another
  driver (`DriverDashboard.PendingOfAnotherDriverIsClaimable`).
- **The receiver "archive" is not a flag.** Hiding a record rewrites its receiver address
  to `archived-<email>`, and unhiding writes the address back.
- **The shipment code can be short.** It is `LOG-` plus at most six upper-cased base-36
  characters. The random fraction's expansion can be shorter than six, so the code can be
  shorter than ten characters.
- **The driver search checks one term and matches another.** It tests the trimmed term for
  blankness but matches with the untrimmed, lower-cased term.
- **The sender offers Complete on every non-Completed record, Received ones included.**
- **The sender's form and page share one message.** The form's step checks and the
  dashboard's failed writes set the same `error`, so Previous also clears a save failure
  and a started save clears a step message.
- **Sender and receiver react differently when a tracked document disappears.** The
  sender's modal shows nothing but keeps its listener. The receiver closes the modal and
  cancels the listener. On a live snapshot, the receiver replaces the record it is
  showing with the stored document.

## Model

| member | source | states |
|---|---|---|
| Shipments.Apply | src/pages/DriverDashboard.jsx:153-168 | every partial update keeps the document id and the shipment code |
| Shipments.SortNewest | src/pages/DriverDashboard.jsx:85-87 | the result is newest first by the chosen time field and is a permutation of the input |
| Shipments.NewestFirstPairwise | src/pages/DriverDashboard.jsx:85-87 | in a newest-first list, every earlier element is at least as new as every later one |
| Shipments.UnparseableFeeIsZero | src/features/driver/RevenueTab.jsx:43-45 | a fee with no digit counts as 0, as `parseFloat(...) \|\| 0` gives |
| Text.EmailCheckMatchesPattern | src/features/sender/OverviewTab.jsx:41-44 | the hand-written check accepts exactly the strings the e-mail pattern matches (both directions) |
| Text.ValidEmailShape | src/features/sender/OverviewTab.jsx:41-44 | an accepted address has exactly one `@`, not first, and a `.` at least two places after it and before the last character |
| Store.Find | src/pages/SenderDashboard.jsx:153-155 | finds a document with the id exactly when the id is present |
| Store.UpdateTouchesOnlyItsDocument | src/pages/SenderDashboard.jsx:245-252 | an update by id keeps ids unique, changes only that document, and applies the patch to it |
| Store.RemoveId | src/pages/SenderDashboard.jsx:263-270 | removing an id keeps exactly the documents with other ids |
| Store.ShipmentStore.Update | src/pages/DriverDashboard.jsx:153-168 | `updateDoc`: succeeds iff the transport works and the document exists; only then is the patch applied |
| Store.ShipmentStore.Add | src/pages/SenderDashboard.jsx:200-209 | `addDoc`: appends the new record when the transport works; ids stay unique |
| Store.ShipmentStore.Delete | src/pages/SenderDashboard.jsx:263-270 | `deleteDoc`: removes the id (also when absent) when the transport works |
| Tracking.Subscription.Replace | src/pages/ReceiverDashboard.jsx:84-101 | opening a listener cancels the previous one: exactly one fresh handle is live |
| Tracking.Subscription.Cancel | src/pages/ReceiverDashboard.jsx:76-82 | closing leaves no live listener |
| Months.MonthsBefore | src/features/sender/MonthlyRecapTab.jsx:105-111 | stepping back `n` months gives a valid month exactly `n` months earlier |
| Months.WindowShape | src/features/sender/MonthlyRecapTab.jsx:105-111 | the window has twelve distinct, consecutive valid months ending with the current one |
| Months.BucketsAddUp | src/features/sender/MonthlyRecapTab.jsx:113-120 | the buckets add up to the amount of the entries that fall in the window |
| Months.CountsAtMost | src/features/sender/MonthlyRecapTab.jsx:113-120 | counting entries into the window never counts more than there are entries |
| Months.WindowTotalAtMost | src/features/driver/RevenueTab.jsx:77-91 | with non-negative amounts, the window holds at most the whole total |
| Months.FillMonths | src/features/sender/MonthlyRecapTab.jsx:104-122 | the loop fills twelve buckets, bucket i holds the amount dated in month i, and the total is the in-window amount |
| Charts.CreationEntries | src/features/sender/MonthlyRecapTab.jsx:113-120 | one unit entry per record; the amount it puts in a month is exactly the number of records created in that month, a record without `createdAt` counting in none |
| Charts.CountByCreatedMonth | src/features/receiver/ReceiverRecapTab.jsx:71-94 | twelve buckets, each the number of records created in that month; their total is at most the number of records |
| DriverDashboard.MergeShape | src/pages/DriverDashboard.jsx:78-83 | the merge keeps the driver's own jobs in front, adds only pool jobs, covers every pool id and keeps ids unique |
| DriverDashboard.MergeKeepsAssignedCopy | src/pages/DriverDashboard.jsx:78-83 | for an id in both queries the assigned copy wins |
| DriverDashboard.CombineJobs | src/pages/DriverDashboard.jsx:78-83 | the merge loop computes the merge |
| DriverDashboard.MergedContents | src/pages/DriverDashboard.jsx:59-83 | the merged list is exactly the records assigned to the driver plus the open pending records, with unique ids |
| DriverDashboard.JobListContents | src/pages/DriverDashboard.jsx:51-108 | the job list has those members, unique ids, newest first |
| DriverDashboard.FirstActiveIndex | src/pages/DriverDashboard.jsx:91-94 | the first job in transit for this driver, or none when there is none |
| DriverDashboard.ActiveJob | src/pages/DriverDashboard.jsx:91-94 | the active job is a listed in-transit job of this driver; there is none iff no job qualifies |
| DriverDashboard.TabsDisjoint | src/pages/DriverDashboard.jsx:413-438 | the pending, completed and archived tabs are disjoint, and a driver-deleted job is in none |
| DriverDashboard.TabCounts | src/pages/DriverDashboard.jsx:413-438 | the three tabs and the driver-deleted jobs together account for every job exactly once |
| DriverDashboard.TabFor | src/pages/DriverDashboard.jsx:273-318 | a found job goes to the completed tab iff its status is finished, never to archived |
| DriverDashboard.SearchJobs | src/pages/DriverDashboard.jsx:440-462 | a blank term keeps the tab; otherwise exactly the matching jobs, in their order |
| Store.CodeQuery | src/pages/DriverDashboard.jsx:265-268 | exactly the records whose code equals the upper-cased input |
| DriverDashboard.Classify | src/pages/DriverDashboard.jsx:273-318 | not found iff no match; already listed, mine, claimable or taken by the first match's id, assignee and status |
| DriverDashboard.PendingOfAnotherDriverIsClaimable | src/pages/DriverDashboard.jsx:306-316 | a pending job pre-assigned to another driver is still offered for claiming |
| DriverDashboard.StatusWrite | src/pages/DriverDashboard.jsx:153-168 | a status write changes only status, location and signature fields |
| DriverDashboard.ClaimWrite | src/pages/DriverDashboard.jsx:205-217 | a claim puts the job in transit for this driver, keeps the fee and touches nothing else |
| DriverDashboard.DeliveryWrite | src/pages/DriverDashboard.jsx:224-259 | a delivery moves the job from the pending tab to the completed tab and ends it as active job |
| DriverDashboard.DriverFlagWrites | src/pages/DriverDashboard.jsx:326-395 | archive, unarchive, delete and mark-paid each touch only their own flag and time, and move the job between tabs as shown |
| DriverDashboard.Optimistic | src/pages/DriverDashboard.jsx:180-187 | the optimistic copy is active for this driver and keeps the id |
| DriverDashboard.DriverSession.constructor | src/pages/DriverDashboard.jsx:25-49 | a session starts with no jobs, no active job and no lookup |
| DriverDashboard.DriverSession.Refresh | src/pages/DriverDashboard.jsx:51-108 | a signed-in driver's list becomes the merged job list and the active job is recomputed; a failed pending query flags an error |
| DriverDashboard.DriverSession.StartDriving | src/pages/DriverDashboard.jsx:170-203 | refused while a job is active; otherwise writes In Transit and keeps the optimistic job only on success |
| DriverDashboard.DriverSession.ClaimJob | src/pages/DriverDashboard.jsx:205-217 | refused while a job is active, with the banner untouched; otherwise writes the claim iff the job exists, makes the claimed job active, and clears the offer on success; a failed write restores the offer and sets the banner |
| DriverDashboard.DriverSession.MarkAsDelivered | src/pages/DriverDashboard.jsx:219-222 | opens the signature pad for the active job |
| DriverDashboard.DriverSession.SignatureSave | src/pages/DriverDashboard.jsx:224-259 | an empty pad only flags an error; otherwise Delivered with signature is written, and success clears the active job |
| DriverDashboard.DriverSession.FindShipment | src/pages/DriverDashboard.jsx:261-324 | the outcome is the classification of the query result, with the list, the claimable offer, the tab, the input and the message set accordingly |
| DriverDashboard.DriverSession.Archive | src/pages/DriverDashboard.jsx:326-338 | succeeds iff the transport works and the job exists; only then is the driver archive flag written |
| DriverDashboard.DriverSession.Unarchive | src/pages/DriverDashboard.jsx:341-353 | the same for the unarchive write |
| DriverDashboard.DriverSession.DeletePermanently | src/pages/DriverDashboard.jsx:355-374 | nothing without confirmation; otherwise the driver delete flag is written iff the job exists |
| DriverDashboard.DriverSession.MarkAsPaid | src/pages/DriverDashboard.jsx:376-395 | nothing without confirmation; otherwise the payment is written iff the job exists |
| ReceiverDashboard.ArchivedTag | src/pages/ReceiverDashboard.jsx:148 | the hiding tag differs from the address it hides |
| ReceiverDashboard.ListForContents | src/pages/ReceiverDashboard.jsx:39-74 | a list holds exactly the records for that address that the receiver has not deleted, newest first |
| ReceiverDashboard.ListsContents | src/pages/ReceiverDashboard.jsx:39-74 | the active and archived lists are disjoint and hold exactly the records for the address and for its tag |
| ReceiverDashboard.HideMovesToArchived | src/pages/ReceiverDashboard.jsx:144-152 | hiding moves a record from the active list to the archived list |
| ReceiverDashboard.HideThenUnhide | src/pages/ReceiverDashboard.jsx:144-162 | unhiding after hiding restores the collection |
| ReceiverDashboard.DeleteLeavesBothLists | src/pages/ReceiverDashboard.jsx:164-184 | a deleted record is in neither list |
| ReceiverDashboard.ReceiverWrites | src/pages/ReceiverDashboard.jsx:123-197 | received, not-received, delete and save each touch only their own fields |
| ReceiverDashboard.SaveBringsIntoList | src/pages/ReceiverDashboard.jsx:186-197 | saving a tracked record puts it in the receiver's active list |
| ReceiverDashboard.SplitPartition | src/pages/ReceiverDashboard.jsx:204-212 | ongoing and completed partition the active list by status |
| ReceiverDashboard.FilterShipments | src/pages/ReceiverDashboard.jsx:214-222 | an empty term keeps the list; otherwise exactly the matching records, in their order |
| ReceiverDashboard.ReceiverSession.constructor | src/pages/ReceiverDashboard.jsx:23-37 | a session starts with empty lists, no modal and no listener |
| ReceiverDashboard.ReceiverSession.Refresh | src/pages/ReceiverDashboard.jsx:39-74 | with an e-mail, each list becomes the active or archived list of the collection when its listener succeeds and is kept when it fails; only a failed active listener sets the banner |
| ReceiverDashboard.ReceiverSession.InList | src/pages/ReceiverDashboard.jsx:199-202 | the tracked record's id is in the receiver's list |
| ReceiverDashboard.ReceiverSession.OpenTracking | src/pages/ReceiverDashboard.jsx:84-101 | shows the record and replaces the listener with a single fresh one |
| ReceiverDashboard.ReceiverSession.CloseModal | src/pages/ReceiverDashboard.jsx:76-82 | hides the modal and leaves no live listener |
| ReceiverDashboard.ReceiverSession.OnSnapshot | src/pages/ReceiverDashboard.jsx:84-101 | a live document refreshes the modal; a vanished one closes it and its listener |
| ReceiverDashboard.ReceiverSession.TypeCode | src/pages/ReceiverDashboard.jsx:429 | the code field holds the typed text upper-cased |
| ReceiverDashboard.ReceiverSession.ManualTrack | src/pages/ReceiverDashboard.jsx:103-117 | opens a record iff the code is non-empty, the query succeeds and a record has the upper-cased code; then the modal shows the first such record with a fresh listener and the field and message are cleared; an empty code reports noShipmentId, a failed query generic, no match notFound, and then the modal, its listener and the field are unchanged |
| ReceiverDashboard.ReceiverSession.MarkAsReceived | src/pages/ReceiverDashboard.jsx:123-132 | writes Received iff the record exists, and then closes the modal |
| ReceiverDashboard.ReceiverSession.Uncomplete | src/pages/ReceiverDashboard.jsx:134-142 | writes Delivered back iff the record exists |
| ReceiverDashboard.ReceiverSession.Hide | src/pages/ReceiverDashboard.jsx:144-152 | re-tags the receiver address iff the record exists |
| ReceiverDashboard.ReceiverSession.Unhide | src/pages/ReceiverDashboard.jsx:154-162 | writes the address back iff the record exists |
| ReceiverDashboard.ReceiverSession.DeletePermanently | src/pages/ReceiverDashboard.jsx:164-184 | nothing without confirmation; otherwise the receiver delete flag is written iff the record exists |
| ReceiverDashboard.ReceiverSession.Save | src/pages/ReceiverDashboard.jsx:186-197 | writes the receiver's address and name onto the tracked record iff it exists |
| SenderDashboard.NonEmpty | src/pages/SenderDashboard.jsx:166-185 | `x \|\| null`: keeps a non-empty string, drops an empty one |
| SenderDashboard.BuildDraft | src/pages/SenderDashboard.jsx:153-198 | the form's parties and goods; a new record starts Pending, unarchived and unsigned; an edit keeps status, archive flag, location, signature and creation time; the driver comes from the form when it has driver data, else stays as it was |
| SenderDashboard.ShipmentCode | src/pages/SenderDashboard.jsx:203-204 | `LOG-` followed by at most six digits or capitals; ten characters when the fraction has six |
| SenderDashboard.EditKeepsLifecycle | src/pages/SenderDashboard.jsx:200-202 | an edit never changes id, code, status, archive flag, location or signature |
| SenderDashboard.EditUnchangedIsIdentity | src/pages/SenderDashboard.jsx:222-242 | saving an edit form loaded from a record without changes leaves the record as it was |
| SenderDashboard.NewRecordFields | src/pages/SenderDashboard.jsx:200-209 | a new record is Pending, unarchived, created now, with a well-formed code |
| SenderDashboard.ActiveShipments | src/pages/SenderDashboard.jsx:340-342 | exactly the unarchived records |
| SenderDashboard.ArchivedShipments | src/pages/SenderDashboard.jsx:340-342 | exactly the archived records |
| SenderDashboard.ActivePartition | src/pages/SenderDashboard.jsx:340-342 | active and archived partition the sender's records |
| SenderDashboard.SenderWrites | src/pages/SenderDashboard.jsx:245-288 | archive and unarchive flip only the flag and move the record between tabs; complete writes Completed and clears the location |
| SenderDashboard.Confirmed | src/pages/SenderDashboard.jsx:123-136 | the confirmed action: delete removes the id; archive and hide set the flag on it; failure changes nothing |
| SenderDashboard.SenderSession.constructor | src/pages/SenderDashboard.jsx:30-63 | a session starts with an empty form, no message, nothing armed, no timer and no listener |
| SenderDashboard.SenderSession.Refresh | src/pages/SenderDashboard.jsx:72-90 | a mock user keeps the list and the message; a failed listener keeps the list and sets the generic message; otherwise the list is the sender's records, newest first |
| SenderDashboard.SenderSession.StartConfirmation | src/pages/SenderDashboard.jsx:111-121 | arms the action and replaces any pending expiry with one fresh timer |
| SenderDashboard.SenderSession.Expire | src/pages/SenderDashboard.jsx:117-119 | the running timer disarms the confirmation |
| SenderDashboard.SenderSession.ActionConfirm | src/pages/SenderDashboard.jsx:123-136 | with an armed id, performs the confirmed action and disarms, and a failed write sets hideFailed or deleteFailed; otherwise nothing |
| ShipmentsTab.ArchiveClick | src/features/sender/ShipmentsTab.jsx:99-120 | a click on a row not showing the confirm label moves the label to that row alone and writes nothing; a click on the labelled row archives it and leaves no row labelled |
| ArchivedTab.DeleteClick | src/features/sender/ArchivedTab.jsx:69-75 | a click on a row not showing the confirm label moves the label to that row alone and writes nothing; a click on the labelled row deletes it and leaves no row labelled |
| SenderDashboard.SenderSession.Unarchive | src/pages/SenderDashboard.jsx:254-261 | clears the archive flag iff the record exists; otherwise sets unhideFailed |
| SenderDashboard.SenderSession.CompleteClick | src/pages/SenderDashboard.jsx:281-288 | callable on any active record not Completed, a Received one included; writes Completed iff the record exists, else sets updateFailed |
| SenderDashboard.SenderSession.EditClick | src/pages/SenderDashboard.jsx:222-242 | loads the record into the form, remembers its id and clears the message |
| SenderDashboard.SenderSession.BeginSubmit | src/pages/SenderDashboard.jsx:138-151 | ignored while a submit is in flight; a mock user only resets the form; otherwise the submit starts and the message is cleared |
| SenderDashboard.SenderSession.FinishSubmit | src/pages/SenderDashboard.jsx:146-220 | updates the edited record or adds a new one from the draft; success resets the form, failure keeps it and sets saveFailed |
| SenderDashboard.SenderSession.TrackClick | src/pages/SenderDashboard.jsx:290-306 | shows the record and replaces the listener with a single fresh one |
| SenderDashboard.SenderSession.OnSnapshot | src/pages/SenderDashboard.jsx:290-306 | the modal shows the document as it now is, or nothing when it is gone |
| SenderDashboard.SenderSession.CloseModal | src/pages/SenderDashboard.jsx:308-314 | hides the modal and leaves no live listener |
| OverviewTab.StepCheck | src/features/sender/OverviewTab.jsx:62-73 | a step passes iff its name is present and its address is valid; the first failing field names the message |
| OverviewTab.PassedChecksGiveValidAddresses | src/features/sender/OverviewTab.jsx:62-73 | passing both checks yields two well-formed addresses and two names |
| OverviewTab.Look | src/features/sender/OverviewTab.jsx:17-19 | a step is done iff before the current one, current iff equal, upcoming iff after |
| OverviewTab.Looks | src/features/sender/OverviewTab.jsx:6-36 | of the three labels exactly the current step's is current |
| OverviewTab.FormStepper.constructor | src/features/sender/OverviewTab.jsx:47-59 | the form starts at step 1 |
| OverviewTab.FormStepper.NextStep | src/features/sender/OverviewTab.jsx:62-73 | on the dashboard's form, a failed check sets its message on the page and stays; a passed one clears the page's message and advances one step |
| OverviewTab.FormStepper.PrevStep | src/features/sender/OverviewTab.jsx:76-79 | goes back one step and clears the page's message, a save failure included |
| OverviewTab.FormStepper.Submit | src/features/sender/OverviewTab.jsx:83-93 | without a goods name, sets its message and changes nothing else; otherwise calls the dashboard's submit, which is ignored in flight, only resets for a mock user, and else starts with the message cleared |
| OverviewTab.FormStepper.EnterOnLastInput | src/features/sender/OverviewTab.jsx:95-107 | while a save is in flight the inputs are disabled and Enter changes nothing at any step; otherwise Enter acts as Next before step 3 and as Submit at step 3 |
| ShipmentsTab.Search | src/features/sender/ShipmentsTab.jsx:23-31 | an empty term keeps the list; otherwise exactly the records matching code, receiver or driver name, in their order |
| ArchivedTab.Search | src/features/sender/ArchivedTab.jsx:16-23 | an empty term keeps the list; otherwise exactly the records matching code or receiver name, in their order |
| Seqs.SearchBy | src/features/sender/ShipmentsTab.jsx:23-31 | the search box shared by the two sender lists: an empty term keeps the list, any other keeps exactly the accepted elements, every copy of each, in order |
| MonthlyRecap.DriverEmails | src/features/sender/MonthlyRecapTab.jsx:48-49 | every listed address is a non-empty driver address of some record, and every such address is listed |
| MonthlyRecap.Stats | src/features/sender/MonthlyRecapTab.jsx:35-62 | total and archived counts; completed counts the active records Completed or Received and ongoing the other active ones, together the active count; drivers is the number of distinct non-empty driver e-mails over both lists, at most the total; fees the sum over both lists |
| MonthlyRecap.DriversAreDistinctEmails | src/features/sender/MonthlyRecapTab.jsx:48-49 | the drivers counted are exactly the distinct non-empty driver addresses |
| Charts.Doughnut | src/features/sender/MonthlyRecapTab.jsx:65-79 | the three slices of both recap doughnuts are ongoing, completed and archived, in that order, and add up to the three counts |
| MonthlyRecap.DoughnutCoversAll | src/features/sender/MonthlyRecapTab.jsx:65-79 | the ongoing, completed and archived slices add up to the total |
| MonthlyRecap.BarChart | src/features/sender/MonthlyRecapTab.jsx:104-122 | twelve monthly creation counts over both lists, totalling at most the number of records |
| ReceiverRecap.Stats | src/features/receiver/ReceiverRecapTab.jsx:35-45 | the total is the sum of the three lists; in transit counts the ongoing records in transit |
| ReceiverRecap.TotalIsBothLists | src/features/receiver/ReceiverRecapTab.jsx:35-45 | built from the dashboard's split, the total is the active plus archived count |
| ReceiverRecap.DoughnutCoversAll | src/features/receiver/ReceiverRecapTab.jsx:52 | the ongoing, completed and archived slices add up to the total |
| ReceiverRecap.BarChart | src/features/receiver/ReceiverRecapTab.jsx:71-94 | twelve monthly creation counts over the three lists, totalling at most the total |
| RevenueTab.Stats | src/features/driver/RevenueTab.jsx:40-66 | revenue is the fee sum of both lists; deliveries their count; the average is their quotient (0 with none); this month's revenue is the fees delivered this month |
| RevenueTab.ThisMonthAtMostTotal | src/features/driver/RevenueTab.jsx:47-55 | with non-negative fees, this month's revenue is between 0 and the total |
| RevenueTab.FeeEntries | src/features/driver/RevenueTab.jsx:77-91 | one entry per job for its fee; the amount it puts in a month is exactly the fees of the jobs delivered in that month, and the entries together carry every fee once |
| RevenueTab.MonthlyEarnings | src/features/driver/RevenueTab.jsx:69-107 | twelve monthly fee sums; the last is this month's revenue; with non-negative fees they total at most the revenue |
| RevenueTab.PaymentSplit | src/features/driver/RevenueTab.jsx:110-139 | the paid slice sums the `paid` jobs and the pending slice the absent-or-`pending` ones; no job is in both, a job with any other status is in neither, so the slices add up to the fees of the jobs in either and, with non-negative fees, to at most the total |
| RevenueTab.RecentEarnings | src/features/driver/RevenueTab.jsx:176-180 | at most ten jobs (ten when there are ten), newest delivery first, each taken from the two lists no more often than it occurs there |
| RevenueTab.RecentAreNewest | src/features/driver/RevenueTab.jsx:176-180 | a job left out was delivered no later than every job shown |
| Seqs.Filter | src/pages/SenderDashboard.jsx:340-342 | `filter` keeps exactly the elements satisfying the predicate |
| Seqs.FilterMultiplicity | src/pages/SenderDashboard.jsx:340-342 | `filter` keeps every copy of an accepted element and no copy of a rejected one |
| Seqs.FilterKeepsOrder | src/features/sender/ShipmentsTab.jsx:23-31 | a filter keeps its elements in their order |
| Seqs.SumDisjointFilters | src/features/driver/RevenueTab.jsx:113-119 | sums over two exclusive filters add up to the sum over their union |
| Seqs.DistinctAtMost | src/features/sender/MonthlyRecapTab.jsx:48-49 | `new Set(list).size` is at most the list's length |
| Seqs.Take | src/features/driver/RevenueTab.jsx:176-180 | `slice(0, n)` is a prefix of length min(n, length) |

## Left out

- Firestore transport, offline caching and listener delivery order: each write or query is one atomic step whose success is a parameter (`transportOk`, `queryOk`, `pendingOk`).
- Concurrent clients, and so the race between two drivers claiming one job: the model has one session at a time.
- Geolocation updates while driving (src/services/ENABLE_FGPS_LOCATION.jsx), the map, printing, invoice rendering, clipboard copies, translations and date formatting: presentation and device I/O.
- AiRecapTab (an external AI call), ProfileTab, Login, RoleSelection and the authentication flow of App.jsx: outside the shipment core; the signed-in user is a parameter.
- The success banner's 3-second timer in the sender dashboard, and the sender's switch to the overview tab in `handleEditClick`: presentation state with no effect on shipments.
- Shipments.FeeValue: reads only the integer part of a fee string; decimals and exponent forms of `parseFloat` are not modelled, because floating point is out of scope.
- RevenueTab.Stats: the average is the floor quotient of integer fee totals, not the floating-point division the page shows.
- Text.Lower and Text.Upper: map only ASCII letters; Unicode case mapping is not modelled.
- Charts.CreationEntries: months are taken from the timestamp as a calendar year and month; the browser's time zone is not modelled.
- Shipments.SortNewest: the order among equal timestamps (the stability of JavaScript's sort) is not stated.
- SenderDashboard.ShipmentCode: the random number behind the code is an input string of base-36 digits; collisions between codes are not modelled.
- OverviewTab.FormStepper.Submit: calls only the synchronous start of the dashboard's save (SenderDashboard.SenderSession.BeginSubmit); the awaited write is the separate SenderDashboard.SenderSession.FinishSubmit, since the model has no promises.
- SenderDashboard.SenderSession.FinishSubmit: the document id of a new record is an input that must be fresh, standing for the id Firestore generates.
- DriverDashboard.DriverSession and ReceiverDashboard.ReceiverSession: the page banner is the flag `failed`; which message it shows (saveFailed, hideFailed, unhideFailed, deleteFailed, paymentFailed, generic) is not modelled, since each failure is already told apart by the method that sets it.
