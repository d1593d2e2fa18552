/** The step indicator: how each step is labelled, and where a click on a
    step takes the wizard. */
module FormStepper {
  import opened Schema
  import opened FormContext

  datatype StepStatus = Completed | Current | Incomplete | Upcoming

  /** `Object.keys(documents).length`: a key holding `undefined` counts, an
      absent key does not. */
  function DocumentKeyCount(d: Documents): (n: nat)
    ensures n <= 3
    ensures n == 0 <==> d == Documents(Absent, Absent, Absent)
  {
    (if d.resume.Absent? then 0 else 1)
    + (if d.profilePicture.Absent? then 0 else 1)
    + (if d.coverLetter.Absent? then 0 else 1)
  }

  /** `stepData && Object.keys(stepData).length > 0`. Every section but the
      documents is an object whose keys are always present; the documents
      object is missing until a file is first dropped. */
  predicate SectionFilled(v: FormValues, index: int)
    requires 0 <= index < TOTAL_STEPS
  {
    index != 2 || (v.documents.Some? && DocumentKeyCount(v.documents.value) > 0)
  }

  /** `getStepStatus`: a pure classification of step `index`. */
  function GetStepStatus(isSubmitSuccessful: bool, v: FormValues, currentStep: int, index: int): (r: StepStatus)
    requires 0 <= index < TOTAL_STEPS
    ensures isSubmitSuccessful ==> r == Completed
    ensures !isSubmitSuccessful ==>
      && (r == Current <==> index == currentStep)
      && (r == Upcoming <==> index > currentStep)
      && (r == Completed <==> index < currentStep && SectionFilled(v, index))
      && (r == Incomplete <==> index < currentStep && !SectionFilled(v, index))
  {
    if isSubmitSuccessful then Completed
    else if index < currentStep then
      if SectionFilled(v, index) then Completed else Incomplete
    else if index == currentStep then Current
    else Upcoming
  }

  /** The status is a presence check, not a validity check: on a fresh form
      that stands on step 1, step 0 shows as completed although its section
      fails validation. */
  lemma CompletedWithoutValidity(env: Env)
    ensures GetStepStatus(false, DefaultValues(env.today), 1, 0) == Completed
    ensures !SectionValid(env, DefaultValues(env.today), 0)
  {
  }

  /** When the resume was the only document key, removing it leaves that
      key behind, so the documents step still shows as completed; once the
      draft has been saved and loaded the key is gone and the step shows as
      incomplete. */
  lemma RemovedResumeAcrossDraft(v: FormValues)
    requires v.documents == Some(Documents(Cleared, Absent, Absent))
    ensures GetStepStatus(false, v, 3, 2) == Completed
    ensures GetStepStatus(false, Revive(Serialize(v)), 3, 2) == Incomplete
  {
    DraftRoundTrip(v);
  }

  /** `handleStepClick`: a later step is refused outright; an earlier one is
      reached only when the current step validates; the current one is
      re-entered through the clamp. */
  function ClickStep(env: Env, w: Wizard, index: int): (r: Wizard)
    requires 0 <= w.currentStep < TOTAL_STEPS
    ensures r.currentStep <= w.currentStep
    ensures r == w.(currentStep := r.currentStep)
    ensures index >= w.currentStep ==> r == w
    ensures index < w.currentStep ==>
      r.currentStep == if SectionValid(env, w.values, w.currentStep) then Clamp(index) else w.currentStep
    ensures Consistent(w) ==> Consistent(r)
  {
    if index > w.currentStep then w
    else if index < w.currentStep && !SectionValid(env, w.values, w.currentStep) then w
    else GoTo(w, index)
  }

  /** The method the step buttons call, updating the shared wizard. */
  method HandleStepClick(form: FormWizard, env: Env, index: int)
    requires form.Valid()
    modifies form
    ensures form.State() == ClickStep(env, old(form.State()), index)
  {
    if index > form.currentStep {
      return;
    }
    if index < form.currentStep {
      var isCurrentStepValid := SectionValid(env, form.values, form.currentStep);
      if !isCurrentStepValid {
        return;
      }
    }
    form.GoToStep(index);
  }
}
