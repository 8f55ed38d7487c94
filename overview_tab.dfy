/** The sender's three-step shipment form (src/features/sender/OverviewTab.jsx): receiver,
    driver, goods. The form's fields and its message are the dashboard's (`formData`,
    `error` and `setError`), so the stepper works on the sender's session. Each forward
    step checks its own fields; the last one hands the form to the dashboard's save. */
module OverviewTab {
  import opened Text
  import opened Shipments
  import opened SenderDashboard

  /** The first problem `nextStep` reports for a step, checked in the code's order. */
  function StepCheck(step: int, f: FormData): (e: PageError)
    ensures e == NoError <==>
      && (step == 1 ==> f.receiverName != "" && IsValidEmail(f.receiverEmail))
      && (step == 2 ==> f.driverName != "" && IsValidEmail(f.driverEmail))
    ensures step == 1 && f.receiverName == "" ==> e == ReceiverNameMissing
    ensures step == 2 && f.driverName == "" ==> e == DriverNameMissing
    ensures e != NoError ==> (step == 1 || step == 2)
  {
    if step == 1 && f.receiverName == "" then ReceiverNameMissing
    else if step == 1 && !IsValidEmail(f.receiverEmail) then ReceiverEmailInvalid
    else if step == 2 && f.driverName == "" then DriverNameMissing
    else if step == 2 && !IsValidEmail(f.driverEmail) then DriverEmailInvalid
    else NoError
  }

  /** Getting past both checks leaves two well-formed addresses on the form: each has
      exactly one `@`, not first, and a `.` after it. */
  lemma PassedChecksGiveValidAddresses(f: FormData)
    requires StepCheck(1, f) == NoError && StepCheck(2, f) == NoError
    ensures f.receiverName != "" && f.driverName != ""
    ensures exists k :: && 0 < k < |f.receiverEmail| && f.receiverEmail[k] == '@'
                        && (forall i :: 0 <= i < |f.receiverEmail| && i != k ==> f.receiverEmail[i] != '@')
                        && (exists j :: k + 1 < j < |f.receiverEmail| - 1 && f.receiverEmail[j] == '.')
    ensures exists k :: && 0 < k < |f.driverEmail| && f.driverEmail[k] == '@'
                        && (forall i :: 0 <= i < |f.driverEmail| && i != k ==> f.driverEmail[i] != '@')
                        && (exists j :: k + 1 < j < |f.driverEmail| - 1 && f.driverEmail[j] == '.')
  {
    ValidEmailShape(f.receiverEmail);
    ValidEmailShape(f.driverEmail);
  }

  /** How the Stepper draws a step. */
  datatype StepLook = Upcoming | Current | Done

  /** The Stepper rule: a step before the current one is done (a check mark), the current
      one is active, a later one is neither. */
  function Look(step: int, currentStep: int): (r: StepLook)
    ensures r == Done <==> step < currentStep
    ensures r == Current <==> step == currentStep
    ensures r == Upcoming <==> step > currentStep
  {
    if step < currentStep then Done
    else if step == currentStep then Current
    else Upcoming
  }

  /** The Stepper's three labels. */
  function Looks(currentStep: int): (r: seq<StepLook>)
    ensures |r| == 3
    ensures 1 <= currentStep <= 3 ==> r[currentStep - 1] == Current
    ensures forall i :: 0 <= i < 3 && i + 1 != currentStep ==> r[i] != Current
  {
    [Look(1, currentStep), Look(2, currentStep), Look(3, currentStep)]
  }

  /** What a submit of the form did: nothing reached it, the goods check refused it, or
      the dashboard's save was called and started as `start` says. */
  datatype SubmitResult = NotSubmitted | Refused | Handed(start: SubmitStart)

  class FormStepper {
    /** `currentStep`. */
    var currentStep: int

    /** Previous is drawn only past step 1 and Next only before step 3, so the step stays
        within 1..3. */
    ghost predicate Valid()
      reads this
    {
      1 <= currentStep <= 3
    }

    constructor ()
      ensures Valid() && currentStep == 1
    {
      currentStep := 1;
    }

    /** `nextStep`, reachable through the Next button and Enter before step 3: a failed
        check sets its message and keeps the step; otherwise the message is cleared and
        the form moves on one step. */
    method NextStep(page: SenderSession)
      requires Valid() && currentStep < 3
      modifies this, page`error
      ensures Valid()
      ensures StepCheck(old(currentStep), page.form) != NoError ==>
        currentStep == old(currentStep) && page.error == StepCheck(old(currentStep), page.form)
      ensures StepCheck(old(currentStep), page.form) == NoError ==>
        currentStep == old(currentStep) + 1 && page.error == NoError
    {
      var e := StepCheck(currentStep, page.form);
      if e != NoError {
        page.error := e;
        return;
      }
      page.error := NoError;
      currentStep := currentStep + 1;
    }

    /** `prevStep`, drawn only past step 1: back one step, and the page's message, whoever
        set it, is cleared. */
    method PrevStep(page: SenderSession)
      requires Valid() && currentStep > 1
      modifies this, page`error
      ensures Valid()
      ensures currentStep == old(currentStep) - 1 && page.error == NoError
    {
      page.error := NoError;
      currentStep := currentStep - 1;
    }

    /** `handleSubmit`, reachable through the submit button of step 3: a form without a
        goods name is refused with its message; otherwise the dashboard's
        `handleCreateOrUpdateShipment` is called, which starts the save unless one is in
        flight or the user is a mock one. A started save clears the message. */
    method Submit(page: SenderSession) returns (r: SubmitResult)
      requires Valid() && currentStep == 3
      modifies page`isSubmitting, page`form, page`editingId, page`error, page`showSuccess
      ensures Valid() && currentStep == 3
      ensures old(page.form).goodsName == "" ==>
        && r == Refused && page.error == GoodsNameMissing
        && page.isSubmitting == old(page.isSubmitting) && page.form == old(page.form)
        && page.editingId == old(page.editingId) && page.showSuccess == old(page.showSuccess)
      ensures old(page.form).goodsName != "" ==> r.Handed?
      ensures r == Handed(Ignored) <==> old(page.form).goodsName != "" && old(page.isSubmitting)
      ensures r == Handed(MockReset) <==>
        old(page.form).goodsName != "" && !old(page.isSubmitting) && IsMock(page.user.uid)
      ensures r == Handed(Started) <==>
        old(page.form).goodsName != "" && !old(page.isSubmitting) && !IsMock(page.user.uid)
      ensures r == Handed(Started) ==>
        && page.isSubmitting && page.error == NoError && !page.showSuccess
        && page.form == old(page.form) && page.editingId == old(page.editingId)
      ensures r == Handed(Ignored) ==> page.error == old(page.error) && page.form == old(page.form)
      ensures r == Handed(MockReset) ==> page.error == old(page.error) && page.form == EmptyForm
    {
      if page.form.goodsName == "" {
        page.error := GoodsNameMissing;
        return Refused;
      }
      var start := page.BeginSubmit();
      r := Handed(start);
    }

    /** `handleEnterOnLastInput` on the last input of a step. Every input is disabled while
        a save is in flight, so Enter then does nothing at any step; otherwise it acts as
        Next before step 3 and clicks the submit button at step 3. */
    method EnterOnLastInput(page: SenderSession) returns (r: SubmitResult)
      requires Valid()
      modifies this, page`isSubmitting, page`form, page`editingId, page`error, page`showSuccess
      ensures Valid()
      ensures old(page.isSubmitting) ==>
        && r == NotSubmitted && currentStep == old(currentStep)
        && page.error == old(page.error) && page.form == old(page.form)
      ensures !old(page.isSubmitting) && old(currentStep) < 3 ==>
        && r == NotSubmitted && page.form == old(page.form)
        && currentStep == old(currentStep) + (if StepCheck(old(currentStep), old(page.form)) == NoError then 1 else 0)
      ensures !old(page.isSubmitting) && old(currentStep) == 3 ==>
        currentStep == 3 && (r == Refused <==> old(page.form).goodsName == "")
        && (r == Handed(Started) <==> old(page.form).goodsName != "" && !IsMock(page.user.uid))
    {
      if page.isSubmitting {
        r := NotSubmitted;
      } else if currentStep < 3 {
        NextStep(page);
        r := NotSubmitted;
      } else {
        r := Submit(page);
      }
    }
  }
}
