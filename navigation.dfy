/** Sequences of user actions on the wizard: the Next and Previous buttons,
    clicks on the step indicator, the draft buttons and edits of the record.
    The lemmas here are about whole runs: the step index stays in range, the
    draft flag keeps telling the truth, and every step the user stands past
    was validated by a Next on the way. */
module Navigation {
  import opened Schema
  import opened FormContext
  import opened FormStepper

  datatype Event =
    | NextClicked(env: Env, saveFails: bool)
    | PrevClicked
    | StepClicked(env: Env, index: int)
    | SaveClicked(saveFails: bool)
    | LoadClicked
    | ClearClicked
    | Edited(values: FormValues)

  /** The stored draft, when there is one, has the shape JSON leaves behind. */
  predicate DraftShaped(w: Wizard)
  {
    STORAGE_KEY in w.storage ==> JsonShaped(w.storage[STORAGE_KEY])
  }

  /** One action. Only a Next whose section validates moves forward, and then
      by exactly one step; loading a saved draft always leaves the documents
      step failing. */
  function Apply(w: Wizard, e: Event): (r: Wizard)
    requires 0 <= w.currentStep < TOTAL_STEPS
    ensures 0 <= r.currentStep < TOTAL_STEPS
    ensures Consistent(w) ==> Consistent(r)
    ensures DraftShaped(w) ==> DraftShaped(r)
    ensures r.currentStep > w.currentStep ==>
      e.NextClicked? && r.currentStep == w.currentStep + 1 && SectionValid(e.env, w.values, w.currentStep)
    ensures e.LoadClicked? && STORAGE_KEY in w.storage && DraftShaped(w) ==> !DocumentsValid(r.values.documents)
    ensures !e.Edited? && !e.LoadClicked? ==> r.values == w.values
  {
    match e
    case NextClicked(env, saveFails) => Next(env, w, saveFails)
    case PrevClicked => Prev(w)
    case StepClicked(env, index) => ClickStep(env, w, index)
    case SaveClicked(saveFails) => Save(w, saveFails).0
    case LoadClicked =>
      if STORAGE_KEY in w.storage && DraftShaped(w) then
        LoadedDocumentsInvalid(w.storage[STORAGE_KEY]);
        Load(w).0
      else Load(w).0
    case ClearClicked => Clear(w)
    case Edited(values) => w.(values := values)
  }

  /** The state after a sequence of actions. */
  function Run(w: Wizard, es: seq<Event>): (r: Wizard)
    requires 0 <= w.currentStep < TOTAL_STEPS
    ensures 0 <= r.currentStep < TOTAL_STEPS
    ensures Consistent(w) ==> Consistent(r)
    ensures DraftShaped(w) ==> DraftShaped(r)
    decreases |es|
  {
    if es == [] then w else Run(Apply(w, es[0]), es[1..])
  }

  /** The steps a run leaves by a successful Next. */
  function Passed(w: Wizard, es: seq<Event>): set<int>
    requires 0 <= w.currentStep < TOTAL_STEPS
    decreases |es|
  {
    if es == [] then {}
    else
      var next := Apply(w, es[0]);
      (if next.currentStep > w.currentStep then {w.currentStep} else {}) + Passed(next, es[1..])
  }

  /** Every step left by a Next in the run had a validating section at that
      moment. */
  lemma {:induction false} PassedWereValid(w: Wizard, es: seq<Event>, k: int)
    requires 0 <= w.currentStep < TOTAL_STEPS
    requires k in Passed(w, es)
    ensures exists i :: 0 <= i < |es| && es[i].NextClicked? && Run(w, es[..i]).currentStep == k
                       && SectionValid(es[i].env, Run(w, es[..i]).values, k)
    decreases |es|
  {
    var next := Apply(w, es[0]);
    if next.currentStep > w.currentStep && k == w.currentStep {
      assert es[..0] == [];
      assert 0 < |es| && es[0].NextClicked? && Run(w, es[..0]).currentStep == k
             && SectionValid(es[0].env, Run(w, es[..0]).values, k);
    } else {
      PassedWereValid(next, es[1..], k);
      var i :| 0 <= i < |es[1..]| && es[1..][i].NextClicked? && Run(next, es[1..][..i]).currentStep == k
               && SectionValid(es[1..][i].env, Run(next, es[1..][..i]).values, k);
      assert es[..i + 1] == [es[0]] + es[1..][..i];
      assert Run(w, es[..i + 1]) == Run(next, es[1..][..i]);
      assert es[i + 1] == es[1..][i];
    }
  }

  /** Nothing but a validated Next moves the wizard forward: every step from
      the starting one up to (not including) the one the run ends on was
      passed by a Next. */
  lemma {:induction false} ReachedOnlyThroughNext(w: Wizard, es: seq<Event>)
    requires 0 <= w.currentStep < TOTAL_STEPS
    ensures forall k :: w.currentStep <= k < Run(w, es).currentStep ==> k in Passed(w, es)
    decreases |es|
  {
    if es != [] {
      var next := Apply(w, es[0]);
      ReachedOnlyThroughNext(next, es[1..]);
    }
  }

  /** From the first step, where a mounted form starts, the user can stand
      on step `j` only after a Next left `j` with its section validating. */
  lemma StepsBeforeCurrentWereValidated(w: Wizard, es: seq<Event>, j: int)
    requires w.currentStep == 0
    requires 0 <= j < Run(w, es).currentStep
    ensures exists i :: 0 <= i < |es| && es[i].NextClicked? && Run(w, es[..i]).currentStep == j
                       && SectionValid(es[i].env, Run(w, es[..i]).values, j)
  {
    ReachedOnlyThroughNext(w, es);
    PassedWereValid(w, es, j);
  }
}
