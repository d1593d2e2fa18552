/** The wizard's shared state: the current step, the draft kept in browser
    storage under one key, and the `isDraftAvailable` flag. The transitions
    are functions on a `Wizard` value; the `FormWizard` class performs them
    in place and is proved against them. */
module FormContext {
  import opened Schema

  const STEP_IDS: seq<string> := ["personalInfo", "professionalInfo", "documents", "additionalInfo", "termsAndReview"]

  const STEP_LABELS: seq<string> :=
    ["Personal Information", "Professional Background", "Upload Documents", "Additional Questions", "Review & Submit"]

  const TOTAL_STEPS: int := |STEP_IDS|

  const STORAGE_KEY: string := "job_application_draft"

  /** `Math.max(0, Math.min(step, formSteps.length - 1))`. */
  function Clamp(step: int): (r: int)
    ensures 0 <= r < TOTAL_STEPS
    ensures 0 <= step < TOTAL_STEPS ==> r == step
    ensures step < 0 ==> r == 0
    ensures step >= TOTAL_STEPS ==> r == TOTAL_STEPS - 1
  {
    var upper := if step < TOTAL_STEPS - 1 then step else TOTAL_STEPS - 1;
    if 0 < upper then upper else 0
  }

  // ---------------------------------------------------------------------------
  // The draft: what JSON keeps of the record, and how loading revives dates
  // ---------------------------------------------------------------------------

  function MomentToJson(m: Moment): Moment
  {
    if m.DateObject? then IsoText(m.date) else m
  }

  function UploadToJson(u: Upload): Upload
  {
    match u
    case Attached(_) => PlainObject
    case Cleared => Absent
    case _ => u
  }

  function ExperienceToJson(e: Experience): Experience
  {
    e.(startDate := MomentToJson(e.startDate), endDate := MomentToJson(e.endDate))
  }

  /** A record as `JSON.parse` gives it back: no `Date` objects, no `File`
      objects, no keys holding `undefined`. */
  predicate JsonShaped(v: FormValues)
  {
    && !v.personalInfo.dateOfBirth.DateObject?
    && !v.additionalInfo.availableStartDate.DateObject?
    && (forall e :: e in v.professionalInfo.experiences ==> !e.startDate.DateObject? && !e.endDate.DateObject?)
    && (v.documents.Some? ==> DocumentsJsonShaped(v.documents.value))
  }

  /** No document key holds a `File` or `undefined`. */
  predicate DocumentsJsonShaped(d: Documents)
  {
    d.resume in {Absent, PlainObject} && d.profilePicture in {Absent, PlainObject} && d.coverLetter in {Absent, PlainObject}
  }

  function DocumentsToJson(d: Documents): Documents
  {
    Documents(UploadToJson(d.resume), UploadToJson(d.profilePicture), UploadToJson(d.coverLetter))
  }

  /** `JSON.parse(JSON.stringify(v))`: dates become ISO strings, a `File`
      becomes `{}`, and a key holding `undefined` disappears. */
  function Serialize(v: FormValues): (r: FormValues)
    ensures JsonShaped(r)
  {
    var xs := v.professionalInfo.experiences;
    v.(
      personalInfo := v.personalInfo.(dateOfBirth := MomentToJson(v.personalInfo.dateOfBirth)),
      professionalInfo := v.professionalInfo.(experiences := seq(|xs|, i requires 0 <= i < |xs| => ExperienceToJson(xs[i]))),
      documents := if v.documents.None? then None else Some(DocumentsToJson(v.documents.value)),
      additionalInfo := v.additionalInfo.(availableStartDate := MomentToJson(v.additionalInfo.availableStartDate)))
  }

  /** The day a truthy date slot names. */
  function DayOf(m: Moment): Date
    requires m.Truthy()
  {
    if m.IsoText? then m.iso else m.date
  }

  /** `if (x) x = new Date(x)`: a falsy value is left as it is. */
  function ReviveIfTruthy(m: Moment): Moment
  {
    if m.Truthy() then DateObject(DayOf(m)) else m
  }

  /** `x ? new Date(x) : undefined`. */
  function ReviveOrUndefined(m: Moment): Moment
  {
    if m.Truthy() then DateObject(DayOf(m)) else Undefined
  }

  function ReviveExperience(e: Experience): Experience
  {
    e.(startDate := ReviveOrUndefined(e.startDate), endDate := ReviveOrUndefined(e.endDate))
  }

  /** The date revival `loadDraft` applies to the parsed draft: afterwards
      no date is held as text and no experience keeps a `null` date; the
      lists keep their lengths. */
  function Revive(v: FormValues): (r: FormValues)
    ensures !r.personalInfo.dateOfBirth.IsoText? && !r.additionalInfo.availableStartDate.IsoText?
    ensures |r.professionalInfo.experiences| == |v.professionalInfo.experiences|
    ensures forall i :: 0 <= i < |r.professionalInfo.experiences| ==>
      var e := r.professionalInfo.experiences[i];
      (e.startDate.DateObject? || e.startDate.Undefined?) && (e.endDate.DateObject? || e.endDate.Undefined?)
  {
    var xs := v.professionalInfo.experiences;
    v.(
      personalInfo := v.personalInfo.(dateOfBirth := ReviveIfTruthy(v.personalInfo.dateOfBirth)),
      additionalInfo := v.additionalInfo.(availableStartDate := ReviveIfTruthy(v.additionalInfo.availableStartDate)),
      professionalInfo := v.professionalInfo.(experiences := seq(|xs|, i requires 0 <= i < |xs| => ReviveExperience(xs[i]))))
  }

  /** What a save followed by a load yields, field by field: every date that
      was set is a `Date` again; an experience's `null` or missing date comes
      back `undefined`; a `File` comes back as an empty object; a cleared
      document key is gone; everything else is unchanged. */
  lemma DraftRoundTrip(v: FormValues)
    ensures var r := Revive(Serialize(v));
      && r.personalInfo == v.personalInfo.(dateOfBirth := ReviveIfTruthy(v.personalInfo.dateOfBirth))
      && r.additionalInfo == v.additionalInfo.(availableStartDate := ReviveIfTruthy(v.additionalInfo.availableStartDate))
      && r.termsAndReview == v.termsAndReview
      && r.professionalInfo.skills == v.professionalInfo.skills
      && r.professionalInfo.yearsOfExperience == v.professionalInfo.yearsOfExperience
      && r.professionalInfo.salaryExpectation == v.professionalInfo.salaryExpectation
      && |r.professionalInfo.experiences| == |v.professionalInfo.experiences|
      && (forall i :: 0 <= i < |v.professionalInfo.experiences| ==>
            r.professionalInfo.experiences[i] == ReviveExperience(v.professionalInfo.experiences[i]))
      && r.documents == (if v.documents.None? then None else Some(DocumentsToJson(v.documents.value)))
  {
  }

  /** A record that comes back from a save and a load exactly as it was. */
  predicate SurvivesDraft(v: FormValues)
  {
    && !v.personalInfo.dateOfBirth.IsoText?
    && !v.additionalInfo.availableStartDate.IsoText?
    && (forall e :: e in v.professionalInfo.experiences ==>
          && (e.startDate.DateObject? || e.startDate.Undefined?)
          && (e.endDate.DateObject? || e.endDate.Undefined?))
    && (v.documents.Some? ==> DocumentsJsonShaped(v.documents.value))
  }

  /** The round trip is exact precisely for records without `Date` strings,
      `null` experience dates, `File`s and cleared document keys. */
  lemma DraftExactIff(v: FormValues)
    ensures Revive(Serialize(v)) == v <==> SurvivesDraft(v)
  {
    var r := Revive(Serialize(v));
    var xs := v.professionalInfo.experiences;
    DraftRoundTrip(v);
    if SurvivesDraft(v) {
      assert r.professionalInfo.experiences == xs by {
        forall i | 0 <= i < |xs| ensures r.professionalInfo.experiences[i] == xs[i] {
          assert xs[i] in xs;
        }
      }
    }
    if r == v {
      forall e | e in xs
        ensures (e.startDate.DateObject? || e.startDate.Undefined?) && (e.endDate.DateObject? || e.endDate.Undefined?)
      {
        var i :| 0 <= i < |xs| && xs[i] == e;
        assert r.professionalInfo.experiences[i] == ReviveExperience(e);
      }
    }
  }

  /** A loaded record survives every later save and load unchanged: the
      round trip loses what it loses the first time only. */
  lemma LoadedRecordStable(v: FormValues)
    ensures SurvivesDraft(Revive(Serialize(v)))
    ensures Revive(Serialize(Revive(Serialize(v)))) == Revive(Serialize(v))
  {
    var r := Revive(Serialize(v));
    var xs := r.professionalInfo.experiences;
    forall e | e in xs
      ensures (e.startDate.DateObject? || e.startDate.Undefined?) && (e.endDate.DateObject? || e.endDate.Undefined?)
    {
      var i :| 0 <= i < |xs| && xs[i] == e;
    }
    DraftExactIff(r);
  }

  /** After any load the documents step fails: the resume, which is required,
      is at best the empty object JSON made of it. */
  lemma LoadedDocumentsInvalid(stored: FormValues)
    requires JsonShaped(stored)
    ensures !DocumentsValid(Revive(stored).documents)
  {
  }

  /** Every other step that validated before a save still validates after
      the load, and no experience keeps a `null` end date. */
  lemma LoadedSectionsStillValid(env: Env, v: FormValues, step: int)
    requires 0 <= step < TOTAL_STEPS && step != 2
    requires SectionValid(env, v, step)
    ensures SectionValid(env, Revive(Serialize(v)), step)
    ensures forall e :: e in Revive(Serialize(v)).professionalInfo.experiences ==> !e.endDate.Null?
  {
    var r := Revive(Serialize(v));
    var xs := v.professionalInfo.experiences;
    DraftRoundTrip(v);
    if step == 1 {
      forall i | 0 <= i < |r.professionalInfo.experiences| ensures ExperienceValid(r.professionalInfo.experiences[i]) {
        assert ExperienceValid(xs[i]);
      }
    }
    forall e | e in r.professionalInfo.experiences ensures !e.endDate.Null? {
      var i :| 0 <= i < |r.professionalInfo.experiences| && r.professionalInfo.experiences[i] == e;
    }
  }

  // ---------------------------------------------------------------------------
  // The wizard state and its transitions
  // ---------------------------------------------------------------------------

  /** The state the context provider holds; `storage` is the browser's
      key-value storage, of which only `STORAGE_KEY` is ever written. */
  datatype Wizard = Wizard(
    currentStep: int,
    isDraftAvailable: bool,
    values: FormValues,
    storage: map<string, FormValues>)

  /** The step index is in range and the flag tells whether a draft is stored. */
  predicate Consistent(w: Wizard)
  {
    0 <= w.currentStep < TOTAL_STEPS && (w.isDraftAvailable <==> STORAGE_KEY in w.storage)
  }

  /** The state after mounting: first step, default values, and the flag read
      from storage. */
  function Mount(today: Date, storage: map<string, FormValues>): (w: Wizard)
    ensures Consistent(w) && w.currentStep == 0
  {
    Wizard(0, STORAGE_KEY in storage, DefaultValues(today), storage)
  }

  function GoTo(w: Wizard, step: int): (r: Wizard)
    ensures r.currentStep == Clamp(step)
    ensures r == w.(currentStep := r.currentStep)
    ensures Consistent(w) ==> Consistent(r)
  {
    w.(currentStep := Clamp(step))
  }

  /** `saveDraft`: `fails` stands for a storage write that throws. */
  function Save(w: Wizard, fails: bool): (r: (Wizard, bool))
    ensures r.1 == !fails
    ensures fails ==> r.0 == w
    ensures !fails ==> && r.0.storage == w.storage[STORAGE_KEY := Serialize(w.values)]
                       && r.0.isDraftAvailable
                       && r.0 == w.(storage := r.0.storage, isDraftAvailable := true)
    ensures Consistent(w) ==> Consistent(r.0)
  {
    if fails then (w, false)
    else (w.(storage := w.storage[STORAGE_KEY := Serialize(w.values)], isDraftAvailable := true), true)
  }

  /** `nextStep`: on any step but the last, advance by one when the current
      step's section validates and then save the draft. */
  function Next(env: Env, w: Wizard, saveFails: bool): (r: Wizard)
    requires 0 <= w.currentStep < TOTAL_STEPS
    ensures w.currentStep == TOTAL_STEPS - 1 ==> r == w
    ensures w.currentStep < TOTAL_STEPS - 1 ==>
      (r.currentStep == w.currentStep + 1 <==> SectionValid(env, w.values, w.currentStep))
    ensures r.currentStep != w.currentStep + 1 ==> r == w
    ensures r.currentStep == w.currentStep + 1 ==> r == Save(w.(currentStep := r.currentStep), saveFails).0
    ensures r.values == w.values
    ensures Consistent(w) ==> Consistent(r)
  {
    if w.currentStep < TOTAL_STEPS - 1 then
      if SectionValid(env, w.values, w.currentStep) then Save(w.(currentStep := w.currentStep + 1), saveFails).0
      else w
    else w
  }

  /** `prevStep`: back by one without validating; nothing happens on the
      first step. */
  function Prev(w: Wizard): (r: Wizard)
    ensures w.currentStep > 0 ==> r == w.(currentStep := w.currentStep - 1)
    ensures w.currentStep <= 0 ==> r == w
    ensures Consistent(w) ==> Consistent(r)
  {
    if w.currentStep > 0 then w.(currentStep := w.currentStep - 1) else w
  }

  /** `loadDraft`: with no stored draft, nothing changes and the answer is
      false; otherwise the revived draft replaces the whole record. */
  function Load(w: Wizard): (r: (Wizard, bool))
    ensures r.1 <==> STORAGE_KEY in w.storage
    ensures !r.1 ==> r.0 == w
    ensures r.1 ==> r.0 == w.(values := Revive(w.storage[STORAGE_KEY]))
    ensures Consistent(w) ==> Consistent(r.0)
  {
    if STORAGE_KEY in w.storage then (w.(values := Revive(w.storage[STORAGE_KEY])), true)
    else (w, false)
  }

  /** `clearDraft`: the key is removed and the flag cleared; other keys stay. */
  function Clear(w: Wizard): (r: Wizard)
    ensures STORAGE_KEY !in r.storage && !r.isDraftAvailable
    ensures forall k :: k != STORAGE_KEY ==> (k in r.storage <==> k in w.storage)
    ensures forall k :: k != STORAGE_KEY && k in w.storage ==> r.storage[k] == w.storage[k]
    ensures r == w.(storage := r.storage, isDraftAvailable := false)
    ensures Consistent(w) ==> Consistent(r)
  {
    w.(storage := w.storage - {STORAGE_KEY}, isDraftAvailable := false)
  }

  /** A draft saved and then loaded gives back the record the round-trip law
      describes, with the step and the flag as the save left them. */
  lemma SaveThenLoad(w: Wizard)
    ensures var saved := Save(w, false).0;
      Load(saved) == (saved.(values := Revive(Serialize(w.values))), true)
  {
  }

  // ---------------------------------------------------------------------------
  // Derived flags and the username check
  // ---------------------------------------------------------------------------

  /** The first step is the one `prevStep` does not leave. */
  predicate IsFirstStep(w: Wizard)
    ensures 0 <= w.currentStep ==> (IsFirstStep(w) <==> Prev(w) == w)
  {
    w.currentStep == 0
  }

  /** The last step is the one a `goToStep` one further does not leave. */
  predicate IsLastStep(w: Wizard)
    ensures 0 <= w.currentStep < TOTAL_STEPS ==> (IsLastStep(w) <==> GoTo(w, w.currentStep + 1) == w)
  {
    w.currentStep == TOTAL_STEPS - 1
  }

  /** ASCII `toLowerCase`. */
  function LowerChar(c: char): char
  {
    if 'A' <= c <= 'Z' then (c as int + 32) as char else c
  }

  function Lower(s: string): (r: string)
    ensures |r| == |s|
    ensures forall i :: 0 <= i < |s| ==> r[i] == LowerChar(s[i])
  {
    seq(|s|, i requires 0 <= i < |s| => LowerChar(s[i]))
  }

  predicate OccursAt(s: string, part: string, i: int)
  {
    0 <= i <= |s| - |part| && s[i..i + |part|] == part
  }

  /** `s.includes(part)`. */
  predicate Contains(s: string, part: string)
  {
    exists i | 0 <= i <= |s| - |part| :: OccursAt(s, part, i)
  }

  /** `checkUsernameAvailability` without its delay: a name is taken when its
      lower-case form contains "taken". */
  predicate UsernameAvailable(username: string)
    ensures |username| < 5 ==> UsernameAvailable(username)
  {
    !Contains(Lower(username), "taken")
  }

  /** A name stays unavailable whatever is written around it. */
  lemma UnavailableWithin(prefix: string, username: string, suffix: string)
    requires !UsernameAvailable(username)
    ensures !UsernameAvailable(prefix + username + suffix)
  {
    var whole := prefix + username + suffix;
    var low := Lower(username);
    var i :| 0 <= i <= |low| - 5 && OccursAt(low, "taken", i);
    var j := |prefix| + i;
    assert |Lower(username)| == |username| && |"taken"| == 5;
    assert |whole| == |prefix| + |username| + |suffix|;
    forall k | i <= k < i + 5 ensures Lower(whole)[|prefix| + k] == Lower(username)[k] {
      assert whole[|prefix| + k] == username[k];
    }
    assert Lower(whole)[j..j + 5] == Lower(username)[i..i + 5];
    assert OccursAt(Lower(whole), "taken", j);
  }

  /** Case does not matter: upper-case letters in "taken" count too. */
  lemma AvailabilityIgnoresCase(username: string)
    ensures UsernameAvailable(username) <==> UsernameAvailable(Lower(username))
  {
    assert Lower(Lower(username)) == Lower(username);
  }

  // ---------------------------------------------------------------------------
  // The context provider, updating its state cells in place
  // ---------------------------------------------------------------------------

  class FormWizard {
    var currentStep: int
    var isDraftAvailable: bool
    var values: FormValues
    var storage: map<string, FormValues>

    function State(): Wizard
      reads this
    {
      Wizard(currentStep, isDraftAvailable, values, storage)
    }

    predicate Valid()
      reads this
    {
      Consistent(State())
    }

    /** Mounting: default values, first step, and the mount-time draft check. */
    constructor (today: Date, stored: map<string, FormValues>)
      ensures State() == Mount(today, stored) && Valid()
    {
      currentStep := 0;
      values := DefaultValues(today);
      storage := stored;
      isDraftAvailable := STORAGE_KEY in stored;
    }

    method GoToStep(step: int)
      modifies this
      ensures State() == GoTo(old(State()), step)
    {
      var upper := if step < TOTAL_STEPS - 1 then step else TOTAL_STEPS - 1;
      currentStep := if 0 < upper then upper else 0;
    }

    method SaveDraft(fails: bool) returns (saved: bool)
      modifies this
      ensures (State(), saved) == Save(old(State()), fails)
    {
      if fails {
        return false;
      }
      storage := storage[STORAGE_KEY := Serialize(values)];
      isDraftAvailable := true;
      return true;
    }

    method NextStep(env: Env, saveFails: bool)
      requires Valid()
      modifies this
      ensures State() == Next(env, old(State()), saveFails)
    {
      if currentStep < TOTAL_STEPS - 1 {
        var isValid := SectionValid(env, values, currentStep);
        if isValid {
          currentStep := currentStep + 1;
          var _ := SaveDraft(saveFails);
        }
      }
    }

    method PrevStep()
      modifies this
      ensures State() == Prev(old(State()))
    {
      if currentStep > 0 {
        currentStep := currentStep - 1;
      }
    }

    /** Revives the parsed draft one field at a time, then adopts it whole. */
    method LoadDraft() returns (loaded: bool)
      modifies this
      ensures (State(), loaded) == Load(old(State()))
    {
      if STORAGE_KEY !in storage {
        return false;
      }
      var parsed := storage[STORAGE_KEY];
      if parsed.personalInfo.dateOfBirth.Truthy() {
        var dob := DateObject(DayOf(parsed.personalInfo.dateOfBirth));
        parsed := parsed.(personalInfo := parsed.personalInfo.(dateOfBirth := dob));
      }
      if parsed.additionalInfo.availableStartDate.Truthy() {
        var start := DateObject(DayOf(parsed.additionalInfo.availableStartDate));
        parsed := parsed.(additionalInfo := parsed.additionalInfo.(availableStartDate := start));
      }
      var xs := parsed.professionalInfo.experiences;
      var revived := seq(|xs|, i requires 0 <= i < |xs| => ReviveExperience(xs[i]));
      parsed := parsed.(professionalInfo := parsed.professionalInfo.(experiences := revived));
      values := parsed;
      return true;
    }

    method ClearDraft()
      modifies this
      ensures State() == Clear(old(State()))
    {
      storage := storage - {STORAGE_KEY};
      isDraftAvailable := false;
    }
  }
}
