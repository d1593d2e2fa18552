/** The editing handlers of the professional-background step: the list of
    experiences and the list of skills, and the date fields of one entry. Each
    handler computes the updated list and writes it back into the form. */
module ProfessionalInfoStep {
  import opened Schema
  import opened FormContext

  /** The index `splice(start, 1)` removes at: a negative start counts from
      the end and stops at 0. */
  function SpliceIndex(length: nat, start: int): int
  {
    if start >= 0 then start
    else if length + start < 0 then 0
    else length + start
  }

  /** `copy.splice(start, 1)` applied to a copy of s: at most one element
      goes; a start past the end removes nothing. */
  function SpliceOne<T>(s: seq<T>, start: int): (r: seq<T>)
    ensures |r| <= |s| <= |r| + 1
    ensures multiset(r) <= multiset(s)
  {
    var k := SpliceIndex(|s|, start);
    if k < |s| then
      assert s == s[..k] + [s[k]] + s[k + 1..];
      s[..k] + s[k + 1..]
    else s
  }

  /** For an index in range, exactly entry i goes and the others keep their
      order; together with it they are the old list. */
  lemma SpliceOneInRange<T>(s: seq<T>, i: int)
    requires 0 <= i < |s|
    ensures |SpliceOne(s, i)| == |s| - 1
    ensures forall j :: 0 <= j < i ==> SpliceOne(s, i)[j] == s[j]
    ensures forall j :: i <= j < |s| - 1 ==> SpliceOne(s, i)[j] == s[j + 1]
    ensures multiset(SpliceOne(s, i)) + multiset{s[i]} == multiset(s)
  {
    assert s == s[..i] + [s[i]] + s[i + 1..];
  }

  /** Negative starts address the list from its end; starts past the end
      leave it as it is. */
  lemma SpliceOneOutOfRange<T>(s: seq<T>, start: int)
    ensures start >= |s| ==> SpliceOne(s, start) == s
    ensures -|s| <= start < 0 ==> SpliceOne(s, start) == SpliceOne(s, |s| + start)
    ensures start < -|s| && |s| > 0 ==> SpliceOne(s, start) == s[1..]
  {
  }

  // ---------------------------------------------------------------------------
  // The lists, as values
  // ---------------------------------------------------------------------------

  /** `addExperience`: one blank entry appended. */
  function AddedExperience(p: ProfessionalInfo, today: Date): (r: ProfessionalInfo)
    ensures |r.experiences| == |p.experiences| + 1
    ensures r.experiences[..|p.experiences|] == p.experiences
    ensures r.experiences[|p.experiences|] == BlankExperience(today)
    ensures r == p.(experiences := r.experiences)
  {
    p.(experiences := p.experiences + [BlankExperience(today)])
  }

  /** `removeExperience`: refused while only one entry is left. */
  function WithoutExperience(p: ProfessionalInfo, index: int): (r: ProfessionalInfo)
    ensures |p.experiences| <= 1 ==> r == p
    ensures r == p.(experiences := r.experiences)
    ensures |p.experiences| >= 1 ==> |r.experiences| >= 1
    ensures |p.experiences| > 1 && 0 <= index < |p.experiences| ==>
      r.experiences == p.experiences[..index] + p.experiences[index + 1..]
  {
    if |p.experiences| > 1 then p.(experiences := SpliceOne(p.experiences, index)) else p
  }

  /** `addSkill`: an empty skill appended. */
  function AddedSkill(p: ProfessionalInfo): (r: ProfessionalInfo)
    ensures r.skills == p.skills + [""]
    ensures r == p.(skills := r.skills)
  {
    p.(skills := p.skills + [""])
  }

  /** `removeSkill`: the same guard and splice as for experiences. */
  function WithoutSkill(p: ProfessionalInfo, index: int): (r: ProfessionalInfo)
    ensures |p.skills| <= 1 ==> r == p
    ensures r == p.(skills := r.skills)
    ensures |p.skills| >= 1 ==> |r.skills| >= 1
    ensures |p.skills| > 1 && 0 <= index < |p.skills| ==> r.skills == p.skills[..index] + p.skills[index + 1..]
  {
    if |p.skills| > 1 then p.(skills := SpliceOne(p.skills, index)) else p
  }

  /** One click on an add or remove button of either list. */
  datatype ListEdit = AddExp(today: Date) | RemoveExp(index: int) | AddSk | RemoveSk(index: int)

  function ApplyEdit(p: ProfessionalInfo, e: ListEdit): ProfessionalInfo
  {
    match e
    case AddExp(today) => AddedExperience(p, today)
    case RemoveExp(index) => WithoutExperience(p, index)
    case AddSk => AddedSkill(p)
    case RemoveSk(index) => WithoutSkill(p, index)
  }

  /** The lists after a sequence of clicks, in order. */
  function ApplyEdits(p: ProfessionalInfo, es: seq<ListEdit>): ProfessionalInfo
    decreases |es|
  {
    if es == [] then p else ApplyEdits(ApplyEdit(p, es[0]), es[1..])
  }

  /** No sequence of adds and removals, on either list and at any indices,
      takes either list below one entry; the other fields never change. */
  lemma {:induction false} EditsKeepOne(p: ProfessionalInfo, es: seq<ListEdit>)
    requires |p.experiences| >= 1 && |p.skills| >= 1
    ensures |ApplyEdits(p, es).experiences| >= 1 && |ApplyEdits(p, es).skills| >= 1
    ensures ApplyEdits(p, es).yearsOfExperience == p.yearsOfExperience
    ensures ApplyEdits(p, es).salaryExpectation == p.salaryExpectation
    decreases |es|
  {
    if es != [] {
      EditsKeepOne(ApplyEdit(p, es[0]), es[1..]);
    }
  }

  /** Removing an entry from a valid list of several keeps it valid. */
  lemma RemovalKeepsValid(p: ProfessionalInfo, index: int)
    requires ProfessionalInfoValid(p)
    ensures ProfessionalInfoValid(WithoutExperience(p, index))
    ensures ProfessionalInfoValid(WithoutSkill(p, index))
  {
    var xs := WithoutExperience(p, index).experiences;
    RemainingEntries(p.experiences, index);
    forall i | 0 <= i < |xs| ensures ExperienceValid(xs[i]) {
      assert xs[i] in p.experiences;
      var j :| 0 <= j < |p.experiences| && p.experiences[j] == xs[i];
    }
    var ss := WithoutSkill(p, index).skills;
    RemainingEntries(p.skills, index);
    forall i | 0 <= i < |ss| ensures JsLength(ss[i]) >= 1 {
      assert ss[i] in p.skills;
      var j :| 0 <= j < |p.skills| && p.skills[j] == ss[i];
    }
  }

  /** What `SpliceOne` keeps is a sub-multiset of the list, so every element
      it keeps was already there. */
  lemma RemainingEntries<T>(s: seq<T>, start: int)
    ensures forall x :: x in SpliceOne(s, start) ==> x in s
  {
    forall x | x in SpliceOne(s, start) ensures x in s {
      assert x in multiset(SpliceOne(s, start));
    }
  }

  /** A freshly added entry is blank, so the step fails until it is filled. */
  lemma AddedExperienceInvalid(p: ProfessionalInfo, today: Date)
    ensures !ProfessionalInfoValid(AddedExperience(p, today))
  {
    var r := AddedExperience(p, today);
    assert !ExperienceValid(r.experiences[|p.experiences|]);
  }

  // ---------------------------------------------------------------------------
  // The date fields of one entry
  // ---------------------------------------------------------------------------

  datatype DateField = StartDate | EndDate

  /** `handleDateChange`: the chosen field of entry `index` gets the date,
      or today when the date is `null`. */
  function WithDate(xs: seq<Experience>, index: int, field: DateField, date: Option<Date>, today: Date): (r: seq<Experience>)
    requires 0 <= index < |xs|
    ensures |r| == |xs|
    ensures forall j :: 0 <= j < |xs| && j != index ==> r[j] == xs[j]
    ensures var d := DateObject(if date.Some? then date.value else today);
      r[index] == if field == StartDate then xs[index].(startDate := d) else xs[index].(endDate := d)
  {
    var d := DateObject(if date.Some? then date.value else today);
    xs[index := if field == StartDate then xs[index].(startDate := d) else xs[index].(endDate := d)]
  }

  /** `handleCurrentChange`: ticking "current" clears the end date; unticking
      it sets the end date to today only when there was none. */
  function WithCurrent(xs: seq<Experience>, index: int, checked: bool, today: Date): (r: seq<Experience>)
    requires 0 <= index < |xs|
    ensures |r| == |xs|
    ensures forall j :: 0 <= j < |xs| && j != index ==> r[j] == xs[j]
    ensures r[index].current == checked
    ensures checked ==> r[index].endDate == Null
    ensures !checked ==> r[index].endDate == if xs[index].endDate.Truthy() then xs[index].endDate else DateObject(today)
    ensures r[index] == xs[index].(current := checked, endDate := r[index].endDate)
  {
    var e := xs[index].(current := checked);
    var e' := if checked then e.(endDate := Null)
              else if !e.endDate.Truthy() then e.(endDate := DateObject(today))
              else e;
    xs[index := e']
  }

  /** An entry whose flag and end date agree: a current position has a
      `null` end date, a past one has an end date. */
  predicate Coupled(e: Experience)
  {
    (e.current ==> e.endDate.Null?) && (!e.current ==> e.endDate.Truthy())
  }

  /** Either answer to the "current" box couples the entry, and no other
      entry changes. */
  lemma CurrentChangeCouples(xs: seq<Experience>, index: int, checked: bool, today: Date)
    requires 0 <= index < |xs|
    ensures Coupled(WithCurrent(xs, index, checked, today)[index])
  {
  }

  /** A start date never disturbs the coupling, nor does an end date given to
      a past position (the end-date input is hidden for a current one); an
      end date given to a current position would break it. */
  lemma DateChangeKeepsCoupling(xs: seq<Experience>, index: int, field: DateField, date: Option<Date>, today: Date)
    requires 0 <= index < |xs| && Coupled(xs[index])
    ensures field == StartDate || !xs[index].current ==> Coupled(WithDate(xs, index, field, date, today)[index])
    ensures field == EndDate && xs[index].current ==> !Coupled(WithDate(xs, index, field, date, today)[index])
  {
  }

  /** The blank entry is not coupled: it is a past position without an end
      date until the box is toggled or an end date is chosen. */
  lemma BlankEntryUncoupled(today: Date)
    ensures !Coupled(BlankExperience(today))
  {
  }

  // ---------------------------------------------------------------------------
  // The handlers, writing the updated list back into the form
  // ---------------------------------------------------------------------------

  function WithProfessional(v: FormValues, p: ProfessionalInfo): FormValues
  {
    v.(professionalInfo := p)
  }

  method AddExperience(form: FormWizard, today: Date)
    modifies form
    ensures form.State() == old(form.State()).(values :=
      WithProfessional(old(form.values), AddedExperience(old(form.values.professionalInfo), today)))
  {
    var experiences := form.values.professionalInfo.experiences;
    var updated := experiences + [BlankExperience(today)];
    form.values := form.values.(professionalInfo := form.values.professionalInfo.(experiences := updated));
  }

  method RemoveExperience(form: FormWizard, index: int)
    modifies form
    ensures form.State() == old(form.State()).(values :=
      WithProfessional(old(form.values), WithoutExperience(old(form.values.professionalInfo), index)))
  {
    var experiences := form.values.professionalInfo.experiences;
    if |experiences| > 1 {
      var updated := SpliceOne(experiences, index);
      form.values := form.values.(professionalInfo := form.values.professionalInfo.(experiences := updated));
    }
  }

  method AddSkill(form: FormWizard)
    modifies form
    ensures form.State() == old(form.State()).(values :=
      WithProfessional(old(form.values), AddedSkill(old(form.values.professionalInfo))))
  {
    var skills := form.values.professionalInfo.skills;
    form.values := form.values.(professionalInfo := form.values.professionalInfo.(skills := skills + [""]));
  }

  method RemoveSkill(form: FormWizard, index: int)
    modifies form
    ensures form.State() == old(form.State()).(values :=
      WithProfessional(old(form.values), WithoutSkill(old(form.values.professionalInfo), index)))
  {
    var skills := form.values.professionalInfo.skills;
    if |skills| > 1 {
      var updated := SpliceOne(skills, index);
      form.values := form.values.(professionalInfo := form.values.professionalInfo.(skills := updated));
    }
  }

  method HandleDateChange(form: FormWizard, index: int, field: DateField, date: Option<Date>, today: Date)
    requires 0 <= index < |form.values.professionalInfo.experiences|
    modifies form
    ensures var p := old(form.values.professionalInfo);
      form.State() == old(form.State()).(values :=
        WithProfessional(old(form.values), p.(experiences := WithDate(p.experiences, index, field, date, today))))
  {
    var updated := form.values.professionalInfo.experiences;
    var d := DateObject(if date.Some? then date.value else today);
    if field == StartDate {
      updated := updated[index := updated[index].(startDate := d)];
    } else {
      updated := updated[index := updated[index].(endDate := d)];
    }
    form.values := form.values.(professionalInfo := form.values.professionalInfo.(experiences := updated));
  }

  method HandleCurrentChange(form: FormWizard, index: int, checked: bool, today: Date)
    requires 0 <= index < |form.values.professionalInfo.experiences|
    modifies form
    ensures var p := old(form.values.professionalInfo);
      form.State() == old(form.State()).(values :=
        WithProfessional(old(form.values), p.(experiences := WithCurrent(p.experiences, index, checked, today))))
  {
    var updated := form.values.professionalInfo.experiences;
    updated := updated[index := updated[index].(current := checked)];
    if checked {
      updated := updated[index := updated[index].(endDate := Null)];
    } else if !updated[index].endDate.Truthy() {
      updated := updated[index := updated[index].(endDate := DateObject(today))];
    }
    form.values := form.values.(professionalInfo := form.values.professionalInfo.(experiences := updated));
  }
}
