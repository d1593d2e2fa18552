/** The application record of the job-application wizard and the per-field
    rules its validation schema applies to it, one section per wizard step. */
module Schema {

  datatype Option<+T> = None | Some(value: T)

  // ---------------------------------------------------------------------------
  // Dates
  // ---------------------------------------------------------------------------

  /** A calendar day. Dates compare lexicographically on (year, month, day). */
  datatype Date = Date(year: int, month: int, day: int)

  predicate OnOrBefore(a: Date, b: Date)
  {
    || a.year < b.year
    || (a.year == b.year && (a.month < b.month || (a.month == b.month && a.day <= b.day)))
  }

  predicate IsLeapYear(y: int)
  {
    y % 4 == 0 && (y % 100 != 0 || y % 400 == 0)
  }

  /** The day `setFullYear(getFullYear() - 18)` turns today into: the same
      month and day eighteen years earlier, except that a 29 February whose
      target year has no such day rolls over to 1 March. */
  function EighteenYearsBefore(today: Date): (r: Date)
    ensures r.year == today.year - 18
    ensures !(today.month == 2 && today.day == 29) ==> r.month == today.month && r.day == today.day
  {
    var y := today.year - 18;
    if today.month == 2 && today.day == 29 && !IsLeapYear(y) then Date(y, 3, 1)
    else Date(y, today.month, today.day)
  }

  /** Eighteen years before a leap year is never a leap year, so on a
      29 February the age boundary is always 1 March. */
  lemma LeapDayBoundary(today: Date)
    requires today.month == 2 && today.day == 29 && IsLeapYear(today.year)
    ensures EighteenYearsBefore(today) == Date(today.year - 18, 3, 1)
  {
    var y := today.year - 18;
    assert y % 4 == 2;
  }

  /** A date-typed slot as the browser holds it: absent, `null`, the ISO
      string JSON turns a `Date` into (standing for the day it names), or a
      `Date` object. */
  datatype Moment = Undefined | Null | IsoText(iso: Date) | DateObject(date: Date)
  {
    /** JavaScript truthiness: a non-empty string or an object. */
    predicate Truthy()
    {
      IsoText? || DateObject?
    }
  }

  // ---------------------------------------------------------------------------
  // The record
  // ---------------------------------------------------------------------------

  /** What a `File` carries that the rules look at. */
  datatype FileMeta = FileMeta(name: string, size: nat, mime: string)

  /** The value under one document key: the key is absent, present with the
      value `undefined`, a `File`, or the empty plain object that JSON makes
      of a `File`. */
  datatype Upload = Absent | Cleared | Attached(file: FileMeta) | PlainObject

  datatype Address = Address(street: string, city: string, state: string, zip: string, country: string)

  datatype PersonalInfo = PersonalInfo(
    firstName: string,
    lastName: string,
    email: string,
    phone: string,
    username: string,
    dateOfBirth: Moment,
    address: Address)

  datatype Experience = Experience(
    company: string,
    position: string,
    startDate: Moment,
    endDate: Moment,
    current: bool,
    description: string)

  datatype ProfessionalInfo = ProfessionalInfo(
    experiences: seq<Experience>,
    skills: seq<string>,
    yearsOfExperience: real,
    salaryExpectation: real)

  datatype Documents = Documents(resume: Upload, profilePicture: Upload, coverLetter: Upload)

  datatype AdditionalInfo = AdditionalInfo(
    howDidYouHear: string,
    otherSource: Option<string>,
    availableStartDate: Moment,
    willingToRelocate: bool,
    reasonForApplying: string,
    additionalComments: Option<string>)

  datatype TermsAndReview = TermsAndReview(
    agreeToTerms: bool,
    agreeToBackgroundCheck: bool,
    confirmInformationAccurate: bool)

  /** The whole form. `documents` is `None` while the key is absent, as it is
      in the default values. */
  datatype FormValues = FormValues(
    personalInfo: PersonalInfo,
    professionalInfo: ProfessionalInfo,
    documents: Option<Documents>,
    additionalInfo: AdditionalInfo,
    termsAndReview: TermsAndReview)

  /** What validation reads from outside the record: the current day, and the
      schema library's e-mail test, whose pattern is not part of this model. */
  datatype Env = Env(today: Date, isEmail: string -> bool)

  // ---------------------------------------------------------------------------
  // Constants
  // ---------------------------------------------------------------------------

  const MAX_FILE_SIZE: nat := 5 * 1024 * 1024

  const ACCEPTED_IMAGE_TYPES: seq<string> := ["image/jpeg", "image/jpg", "image/png", "image/webp"]

  const ACCEPTED_FILE_TYPES: seq<string> :=
    ["application/pdf",
     "application/msword",
     "application/vnd.openxmlformats-officedocument.wordprocessingml.document"]

  const HOW_DID_YOU_HEAR: seq<string> := ["jobBoard", "socialMedia", "referral", "other"]

  // ---------------------------------------------------------------------------
  // The three anchored patterns, matched as the regular-expression engine
  // reads them
  // ---------------------------------------------------------------------------

  datatype CharClass = Digit | Word

  /** `[0-9]` (also `\d`) and `[a-zA-Z0-9_]`. */
  predicate InClass(c: char, k: CharClass)
  {
    match k
    case Digit => '0' <= c <= '9'
    case Word => ('a' <= c <= 'z') || ('A' <= c <= 'Z') || ('0' <= c <= '9') || c == '_'
  }

  predicate AllIn(s: string, k: CharClass)
  {
    forall i :: 0 <= i < |s| ==> InClass(s[i], k)
  }

  /** The upper bound of a repetition: `{lo,hi}` or `+`. */
  datatype Bound = AtMost(n: nat) | Unbounded
  {
    predicate Admits(count: nat)
    {
      Unbounded? || count <= n
    }

    function Less(): Bound
      requires Unbounded? || n > 0
    {
      if Unbounded? then Unbounded else AtMost(n - 1)
    }
  }

  /** `k{lo,hi}$`: the rest of the input is a repetition of class k that
      takes at least lo and at most hi characters, then the input ends. */
  function RunToEnd(s: string, k: CharClass, lo: int, hi: Bound): bool
    decreases |s|
  {
    if s == [] then lo <= 0
    else (hi.Unbounded? || hi.n > 0) && InClass(s[0], k) && RunToEnd(s[1..], k, lo - 1, hi.Less())
  }

  lemma {:induction false} RunToEndMeaning(s: string, k: CharClass, lo: int, hi: Bound)
    ensures RunToEnd(s, k, lo, hi) <==> lo <= |s| && hi.Admits(|s|) && AllIn(s, k)
    decreases |s|
  {
    if s != [] {
      if hi.Unbounded? || hi.n > 0 {
        RunToEndMeaning(s[1..], k, lo - 1, hi.Less());
      }
      assert AllIn(s, k) <==> InClass(s[0], k) && AllIn(s[1..], k) by {
        if InClass(s[0], k) && AllIn(s[1..], k) {
          forall i | 0 <= i < |s| ensures InClass(s[i], k) {
            if i > 0 { assert s[i] == s[1..][i - 1]; }
          }
        }
        if AllIn(s, k) {
          forall i | 0 <= i < |s| - 1 ensures InClass(s[1..][i], k) {
            assert s[1..][i] == s[i + 1];
          }
        }
      }
    }
  }

  /** `^\+?[0-9]{10,15}$`: the greedy optional `+` is tried first, then the
      match without it. */
  predicate PhoneMatches(s: string)
  {
    || (|s| > 0 && s[0] == '+' && RunToEnd(s[1..], Digit, 10, AtMost(15)))
    || RunToEnd(s, Digit, 10, AtMost(15))
  }

  /** What remains of a phone number once one leading `+` is dropped. */
  function PhoneDigits(s: string): string
  {
    if |s| > 0 && s[0] == '+' then s[1..] else s
  }

  lemma PhoneMeaning(s: string)
    ensures PhoneMatches(s) <==> 10 <= |PhoneDigits(s)| <= 15 && AllIn(PhoneDigits(s), Digit)
  {
    RunToEndMeaning(s, Digit, 10, AtMost(15));
    if |s| > 0 {
      RunToEndMeaning(s[1..], Digit, 10, AtMost(15));
      if s[0] == '+' {
        assert !InClass(s[0], Digit);
      }
    }
  }

  /** `^[a-zA-Z0-9_]+$`. */
  predicate UsernameMatches(s: string)
  {
    RunToEnd(s, Word, 1, Unbounded)
  }

  lemma UsernameMeaning(s: string)
    ensures UsernameMatches(s) <==> |s| >= 1 && AllIn(s, Word)
  {
    RunToEndMeaning(s, Word, 1, Unbounded);
  }

  /** `^\d{5}(-\d{4})?$`: five digits, then the greedy optional group, then
      the end of the input. */
  predicate ZipMatches(s: string)
  {
    && |s| >= 5
    && AllIn(s[..5], Digit)
    && ((|s| > 5 && s[5] == '-' && RunToEnd(s[6..], Digit, 4, AtMost(4))) || |s| == 5)
  }

  lemma ZipMeaning(s: string)
    ensures ZipMatches(s) <==>
      || (|s| == 5 && AllIn(s, Digit))
      || (|s| == 10 && AllIn(s[..5], Digit) && s[5] == '-' && AllIn(s[6..], Digit))
  {
    if |s| > 5 {
      RunToEndMeaning(s[6..], Digit, 4, AtMost(4));
    }
    if |s| == 5 {
      assert s[..5] == s;
    }
  }

  // ---------------------------------------------------------------------------
  // Field rules
  // ---------------------------------------------------------------------------

  /** JavaScript's `length`, which `min` and `max` compare: the number of
      UTF-16 code units, two for each character outside the Basic
      Multilingual Plane. */
  function JsLength(s: string): (n: nat)
    ensures |s| <= n <= 2 * |s|
    decreases |s|
  {
    if s == [] then 0 else (if s[0] as int < 0x1_0000 then 1 else 2) + JsLength(s[1..])
  }

  /** Text within the Basic Multilingual Plane has one code unit per
      character. */
  lemma {:induction false} JsLengthInPlane(s: string)
    requires forall i :: 0 <= i < |s| ==> s[i] as int < 0x1_0000
    ensures JsLength(s) == |s|
    decreases |s|
  {
    if s != [] {
      assert forall i :: 0 <= i < |s[1..]| ==> s[1..][i] == s[i + 1];
      JsLengthInPlane(s[1..]);
    }
  }

  /** A character outside the Basic Multilingual Plane is two code units
      long, so a one-character first name of that kind meets `min(2)`. */
  lemma OneAstralCharacterIsTwoUnits(c: char)
    requires c as int >= 0x1_0000
    ensures |[c]| == 1 && JsLength([c]) == 2
  {
    assert [c][1..] == [];
  }

  /** Text made only of characters outside the Basic Multilingual Plane has
      two code units per character. */
  lemma {:induction false} JsLengthOutsidePlane(s: string)
    requires forall i :: 0 <= i < |s| ==> s[i] as int >= 0x1_0000
    ensures JsLength(s) == 2 * |s|
    decreases |s|
  {
    if s != [] {
      assert forall i :: 0 <= i < |s[1..]| ==> s[1..][i] == s[i + 1];
      JsLengthOutsidePlane(s[1..]);
    }
  }

  predicate UsernameAccepted(s: string)
  {
    JsLength(s) >= 3 && UsernameMatches(s)
  }

  /** `date <= eighteenYearsAgo` on a value that must be a `Date`. */
  predicate AdultOn(today: Date, dob: Moment)
  {
    dob.DateObject? && OnOrBefore(dob.date, EighteenYearsBefore(today))
  }

  /** The age rule only gets easier to meet for earlier birth dates. */
  lemma {:induction false} AdultOnEarlier(today: Date, d: Date, earlier: Date)
    requires AdultOn(today, DateObject(d)) && OnOrBefore(earlier, d)
    ensures AdultOn(today, DateObject(earlier))
  {
    var b := EighteenYearsBefore(today);
    if earlier.year == d.year && d.year == b.year {
      if earlier.month == d.month && d.month == b.month {
        assert earlier.day <= d.day <= b.day;
      }
    }
  }

  /** The first message the schema reports for a document slot, if any:
      `instanceof(File)` (skipped for an absent optional slot), then the size
      refinement, then the type refinement. */
  const NOT_A_FILE := "Input not instance of File"

  datatype Slot = Resume | ProfilePicture | CoverLetter

  function SlotTypes(slot: Slot): seq<string>
  {
    if slot == ProfilePicture then ACCEPTED_IMAGE_TYPES else ACCEPTED_FILE_TYPES
  }

  function SlotMessage(slot: Slot, u: Upload): (r: Option<string>)
    ensures r.None? <==>
      || (slot != Resume && (u.Absent? || u.Cleared?))
      || (u.Attached? && u.file.size <= MAX_FILE_SIZE && u.file.mime in SlotTypes(slot))
  {
    if slot != Resume && (u.Absent? || u.Cleared?) then None
    else if !u.Attached? then Some(NOT_A_FILE)
    else if u.file.size > MAX_FILE_SIZE then
      Some(if slot == ProfilePicture then "Image size must be less than 5MB" else "File size must be less than 5MB")
    else if u.file.mime !in SlotTypes(slot) then
      Some(if slot == ProfilePicture then "Only JPEG, JPG, PNG, or WebP images are accepted"
           else "Only PDF, DOC, or DOCX files are accepted")
    else None
  }

  function UploadOf(d: Documents, slot: Slot): Upload
  {
    match slot
    case Resume => d.resume
    case ProfilePicture => d.profilePicture
    case CoverLetter => d.coverLetter
  }

  predicate UploadAccepted(slot: Slot, u: Upload)
  {
    SlotMessage(slot, u).None?
  }

  // ---------------------------------------------------------------------------
  // Section rules: each section validates as the conjunction of its fields
  // ---------------------------------------------------------------------------

  predicate AddressValid(a: Address)
  {
    JsLength(a.street) >= 1 && JsLength(a.city) >= 1 && JsLength(a.state) >= 1 && ZipMatches(a.zip)
    && JsLength(a.country) >= 1
  }

  predicate PersonalInfoValid(env: Env, p: PersonalInfo)
  {
    && JsLength(p.firstName) >= 2
    && JsLength(p.lastName) >= 2
    && env.isEmail(p.email)
    && PhoneMatches(p.phone)
    && UsernameAccepted(p.username)
    && AdultOn(env.today, p.dateOfBirth)
    && AddressValid(p.address)
  }

  /** `endDate: z.date().nullable().optional()`: a `Date`, `null` or absent. */
  predicate ExperienceValid(e: Experience)
  {
    && JsLength(e.company) >= 1
    && JsLength(e.position) >= 1
    && e.startDate.DateObject?
    && !e.endDate.IsoText?
    && JsLength(e.description) >= 1
  }

  predicate ProfessionalInfoValid(p: ProfessionalInfo)
  {
    && |p.experiences| >= 1
    && (forall i :: 0 <= i < |p.experiences| ==> ExperienceValid(p.experiences[i]))
    && |p.skills| >= 1
    && (forall i :: 0 <= i < |p.skills| ==> JsLength(p.skills[i]) >= 1)
    && 0.0 <= p.yearsOfExperience <= 50.0
    && 0.0 <= p.salaryExpectation
  }

  predicate DocumentsValid(d: Option<Documents>)
  {
    && d.Some?
    && UploadAccepted(Resume, d.value.resume)
    && UploadAccepted(ProfilePicture, d.value.profilePicture)
    && UploadAccepted(CoverLetter, d.value.coverLetter)
  }

  /** `otherSource` is optional whatever `howDidYouHear` says. The reason
      for applying is bounded in code units, so in characters it may be as
      short as 25. */
  predicate AdditionalInfoValid(a: AdditionalInfo)
    ensures AdditionalInfoValid(a) ==> 25 <= |a.reasonForApplying| <= 500
  {
    && a.howDidYouHear in HOW_DID_YOU_HEAR
    && a.availableStartDate.DateObject?
    && 50 <= JsLength(a.reasonForApplying) <= 500
  }

  /** Each consent is `z.literal(true)`: only the record with all three
      boxes ticked passes. */
  predicate TermsValid(t: TermsAndReview)
    ensures TermsValid(t) <==> t == TermsAndReview(true, true, true)
  {
    t.agreeToTerms && t.agreeToBackgroundCheck && t.confirmInformationAccurate
  }

  /** Validation of the section of wizard step `step` (what `trigger(stepId)` answers). */
  predicate SectionValid(env: Env, v: FormValues, step: int)
    requires 0 <= step < 5
    ensures SectionValid(env, v, step) && step == 2 ==> v.documents.Some? && v.documents.value.resume.Attached?
    ensures SectionValid(env, v, step) && step == 4 ==> v.termsAndReview == TermsAndReview(true, true, true)
  {
    match step
    case 0 => PersonalInfoValid(env, v.personalInfo)
    case 1 => ProfessionalInfoValid(v.professionalInfo)
    case 2 => DocumentsValid(v.documents)
    case 3 => AdditionalInfoValid(v.additionalInfo)
    case 4 => TermsValid(v.termsAndReview)
  }

  // ---------------------------------------------------------------------------
  // The error map: one path per failing field, as the resolver keys it
  // ---------------------------------------------------------------------------

  /** The keys of the record, spelled as the error map spells them. */
  datatype FieldName =
    | personalInfo | firstName | lastName | email | phone | username | dateOfBirth
    | address | street | city | state | zip | country
    | professionalInfo | experiences | company | position | startDate | endDate | description
    | skills | yearsOfExperience | salaryExpectation
    | documents | resume | profilePicture | coverLetter
    | additionalInfo | howDidYouHear | availableStartDate | reasonForApplying
    | termsAndReview | agreeToTerms | agreeToBackgroundCheck | confirmInformationAccurate

  datatype PathPart = Key(name: FieldName) | Index(i: nat)

  type Path = seq<PathPart>

  /** The path of a field, reported when its rule fails. */
  function Flag(ok: bool, path: Path): set<Path>
  {
    if ok then {} else {path}
  }

  function At(section: FieldName, field: FieldName): Path
  {
    [Key(section), Key(field)]
  }

  function AddressPath(field: FieldName): Path
  {
    [Key(personalInfo), Key(address), Key(field)]
  }

  const PERSONAL_KEYS: seq<FieldName> := [firstName, lastName, email, phone, username, dateOfBirth]

  const ADDRESS_KEYS: seq<FieldName> := [street, city, state, zip, country]

  /** The rule of one key of the personal section. */
  predicate PersonalRule(env: Env, p: PersonalInfo, key: FieldName)
  {
    match key
    case firstName => JsLength(p.firstName) >= 2
    case lastName => JsLength(p.lastName) >= 2
    case email => env.isEmail(p.email)
    case phone => PhoneMatches(p.phone)
    case username => UsernameAccepted(p.username)
    case dateOfBirth => AdultOn(env.today, p.dateOfBirth)
    case _ => true
  }

  /** The rule of one key of the address. */
  predicate AddressRule(a: Address, key: FieldName)
  {
    match key
    case street => JsLength(a.street) >= 1
    case city => JsLength(a.city) >= 1
    case state => JsLength(a.state) >= 1
    case zip => ZipMatches(a.zip)
    case country => JsLength(a.country) >= 1
    case _ => true
  }

  function PersonalInfoIssues(env: Env, p: PersonalInfo): set<Path>
  {
    (set key | key in PERSONAL_KEYS && !PersonalRule(env, p, key) :: At(personalInfo, key))
    + (set key | key in ADDRESS_KEYS && !AddressRule(p.address, key) :: AddressPath(key))
  }

  /** The personal section passes exactly when every key keeps its rule. */
  lemma PersonalInfoValidByKeys(env: Env, p: PersonalInfo)
    ensures PersonalInfoValid(env, p)
        <==> (forall key :: key in PERSONAL_KEYS ==> PersonalRule(env, p, key))
             && (forall key :: key in ADDRESS_KEYS ==> AddressRule(p.address, key))
  {
    PersonalKeysListed(env, p);
    AddressKeysListed(p.address);
  }

  lemma PersonalKeysListed(env: Env, p: PersonalInfo)
    ensures (forall key :: key in PERSONAL_KEYS ==> PersonalRule(env, p, key))
        <==> PersonalRule(env, p, firstName) && PersonalRule(env, p, lastName) && PersonalRule(env, p, email)
             && PersonalRule(env, p, phone) && PersonalRule(env, p, username) && PersonalRule(env, p, dateOfBirth)
  {
    assert PERSONAL_KEYS[0] == firstName && PERSONAL_KEYS[1] == lastName && PERSONAL_KEYS[2] == email;
    assert PERSONAL_KEYS[3] == phone && PERSONAL_KEYS[4] == username && PERSONAL_KEYS[5] == dateOfBirth;
  }

  lemma AddressKeysListed(a: Address)
    ensures (forall key :: key in ADDRESS_KEYS ==> AddressRule(a, key))
        <==> AddressRule(a, street) && AddressRule(a, city) && AddressRule(a, state)
             && AddressRule(a, zip) && AddressRule(a, country)
  {
    assert ADDRESS_KEYS[0] == street && ADDRESS_KEYS[1] == city && ADDRESS_KEYS[2] == state;
    assert ADDRESS_KEYS[3] == zip && ADDRESS_KEYS[4] == country;
  }

  /** A personal key's path is reported exactly when the key breaks its rule. */
  lemma PersonalPathReported(env: Env, p: PersonalInfo, key: FieldName)
    requires key in PERSONAL_KEYS
    ensures At(personalInfo, key) in PersonalInfoIssues(env, p) <==> !PersonalRule(env, p, key)
  {
    var own := set k | k in PERSONAL_KEYS && !PersonalRule(env, p, k) :: At(personalInfo, k);
    var other := set k | k in ADDRESS_KEYS && !AddressRule(p.address, k) :: AddressPath(k);
    assert At(personalInfo, key) !in other;
    if At(personalInfo, key) in own {
      var k :| k in PERSONAL_KEYS && !PersonalRule(env, p, k) && At(personalInfo, k) == At(personalInfo, key);
      assert At(personalInfo, k)[1] == Key(k);
    }
  }

  /** An address key's path is reported exactly when the key breaks its rule. */
  lemma AddressPathReported(env: Env, p: PersonalInfo, key: FieldName)
    requires key in ADDRESS_KEYS
    ensures AddressPath(key) in PersonalInfoIssues(env, p) <==> !AddressRule(p.address, key)
  {
    var own := set k | k in ADDRESS_KEYS && !AddressRule(p.address, k) :: AddressPath(k);
    var other := set k | k in PERSONAL_KEYS && !PersonalRule(env, p, k) :: At(personalInfo, k);
    assert AddressPath(key) !in other;
    if AddressPath(key) in own {
      var k :| k in ADDRESS_KEYS && !AddressRule(p.address, k) && AddressPath(k) == AddressPath(key);
      assert AddressPath(k)[2] == Key(k);
    }
  }

  /** The path of field `f` of experience entry `i`. */
  function EntryPath(i: nat, f: FieldName): Path
  {
    [Key(professionalInfo), Key(experiences), Index(i), Key(f)]
  }

  /** One path per failing field of entry `i`, and no other path. */
  function ExperienceIssues(i: nat, e: Experience): (r: set<Path>)
    ensures forall path :: path in r ==> |path| == 4 && path[2] == Index(i)
    ensures EntryPath(i, company) in r <==> e.company == ""
    ensures EntryPath(i, position) in r <==> e.position == ""
    ensures EntryPath(i, startDate) in r <==> !e.startDate.DateObject?
    ensures EntryPath(i, endDate) in r <==> e.endDate.IsoText?
    ensures EntryPath(i, description) in r <==> e.description == ""
    ensures r == {} <==> ExperienceValid(e)
  {
    Flag(JsLength(e.company) >= 1, EntryPath(i, company))
    + Flag(JsLength(e.position) >= 1, EntryPath(i, position))
    + Flag(e.startDate.DateObject?, EntryPath(i, startDate))
    + Flag(!e.endDate.IsoText?, EntryPath(i, endDate))
    + Flag(JsLength(e.description) >= 1, EntryPath(i, description))
  }

  function SkillPath(i: nat): Path
  {
    [Key(professionalInfo), Key(skills), Index(i)]
  }

  /** The paths of the failing fields of every experience entry. */
  function EntriesIssues(xs: seq<Experience>): (r: set<Path>)
    ensures forall path :: path in r ==> |path| == 4
    ensures r == {} <==> forall i :: 0 <= i < |xs| ==> ExperienceValid(xs[i])
  {
    var r := set i: nat, path | i < |xs| && path in ExperienceIssues(i, xs[i]) :: path;
    assert r == {} <==> forall i :: 0 <= i < |xs| ==> ExperienceValid(xs[i]) by {
      if exists i :: 0 <= i < |xs| && !ExperienceValid(xs[i]) {
        var i :| 0 <= i < |xs| && !ExperienceValid(xs[i]);
        var path :| path in ExperienceIssues(i, xs[i]);
        assert path in r;
      }
    }
    r
  }

  /** The paths of the empty skills, one per empty entry. */
  function SkillsIssues(skills: seq<string>): (r: set<Path>)
    ensures forall path :: path in r ==> |path| == 3
    ensures forall i: nat :: SkillPath(i) in r <==> i < |skills| && skills[i] == ""
  {
    var r := set i: nat | i < |skills| && JsLength(skills[i]) < 1 :: SkillPath(i);
    assert forall i: nat :: SkillPath(i) in r ==> i < |skills| && skills[i] == "" by {
      forall i: nat | SkillPath(i) in r ensures i < |skills| && skills[i] == "" {
        var j: nat :| j < |skills| && JsLength(skills[j]) < 1 && SkillPath(j) == SkillPath(i);
        assert SkillPath(j)[2] == Index(j);
      }
    }
    r
  }

  function ProfessionalInfoIssues(p: ProfessionalInfo): set<Path>
  {
    Flag(|p.experiences| >= 1, At(professionalInfo, experiences))
    + EntriesIssues(p.experiences)
    + Flag(|p.skills| >= 1, At(professionalInfo, skills))
    + SkillsIssues(p.skills)
    + Flag(0.0 <= p.yearsOfExperience <= 50.0, At(professionalInfo, yearsOfExperience))
    + Flag(0.0 <= p.salaryExpectation, At(professionalInfo, salaryExpectation))
  }

  function DocumentsIssues(d: Option<Documents>): set<Path>
  {
    if d.None? then {[Key(documents)]}
    else
      Flag(UploadAccepted(Resume, d.value.resume), At(documents, resume))
      + Flag(UploadAccepted(ProfilePicture, d.value.profilePicture), At(documents, profilePicture))
      + Flag(UploadAccepted(CoverLetter, d.value.coverLetter), At(documents, coverLetter))
  }

  function AdditionalInfoIssues(a: AdditionalInfo): set<Path>
  {
    Flag(a.howDidYouHear in HOW_DID_YOU_HEAR, At(additionalInfo, howDidYouHear))
    + Flag(a.availableStartDate.DateObject?, At(additionalInfo, availableStartDate))
    + Flag(50 <= JsLength(a.reasonForApplying) <= 500, At(additionalInfo, reasonForApplying))
  }

  function TermsIssues(t: TermsAndReview): set<Path>
  {
    Flag(t.agreeToTerms, At(termsAndReview, agreeToTerms))
    + Flag(t.agreeToBackgroundCheck, At(termsAndReview, agreeToBackgroundCheck))
    + Flag(t.confirmInformationAccurate, At(termsAndReview, confirmInformationAccurate))
  }

  function SectionIssues(env: Env, v: FormValues, step: int): set<Path>
    requires 0 <= step < 5
  {
    match step
    case 0 => PersonalInfoIssues(env, v.personalInfo)
    case 1 => ProfessionalInfoIssues(v.professionalInfo)
    case 2 => DocumentsIssues(v.documents)
    case 3 => AdditionalInfoIssues(v.additionalInfo)
    case 4 => TermsIssues(v.termsAndReview)
  }

  lemma ProfessionalInfoIssuesEmpty(p: ProfessionalInfo)
    ensures ProfessionalInfoValid(p) <==> ProfessionalInfoIssues(p) == {}
  {
    if exists i :: 0 <= i < |p.skills| && JsLength(p.skills[i]) < 1 {
      var i :| 0 <= i < |p.skills| && JsLength(p.skills[i]) < 1;
      assert SkillPath(i) in SkillsIssues(p.skills);
    }
    if SkillsIssues(p.skills) != {} {
      var path :| path in SkillsIssues(p.skills);
      var i: nat :| i < |p.skills| && JsLength(p.skills[i]) < 1 && path == SkillPath(i);
    }
  }

  /** The error map of a step is empty exactly when the step's section
      validates. */
  lemma SectionIssuesEmpty(env: Env, v: FormValues, step: int)
    requires 0 <= step < 5
    ensures SectionValid(env, v, step) <==> SectionIssues(env, v, step) == {}
  {
    if step == 0 {
      PersonalInfoValidByKeys(env, v.personalInfo);
      forall key | key in PERSONAL_KEYS {
        PersonalPathReported(env, v.personalInfo, key);
      }
      forall key | key in ADDRESS_KEYS {
        AddressPathReported(env, v.personalInfo, key);
      }
    }
    if step == 1 {
      ProfessionalInfoIssuesEmpty(v.professionalInfo);
    }
  }

  /** The names are reported exactly when shorter than two code units: the
      empty name always, a one-character name unless that character lies
      outside the Basic Multilingual Plane. */
  lemma NameFieldErrors(env: Env, p: PersonalInfo)
    ensures At(personalInfo, firstName) in PersonalInfoIssues(env, p) <==> JsLength(p.firstName) < 2
    ensures At(personalInfo, lastName) in PersonalInfoIssues(env, p) <==> JsLength(p.lastName) < 2
    ensures p.firstName == "" ==> At(personalInfo, firstName) in PersonalInfoIssues(env, p)
    ensures |p.firstName| >= 2 ==> At(personalInfo, firstName) !in PersonalInfoIssues(env, p)
  {
    PersonalPathReported(env, p, firstName);
    PersonalPathReported(env, p, lastName);
  }

  /** Phone and username are reported exactly when they break their pattern,
      read as plain conditions on the characters. */
  lemma PatternFieldErrors(env: Env, p: PersonalInfo)
    ensures At(personalInfo, phone) in PersonalInfoIssues(env, p)
        <==> !(10 <= |PhoneDigits(p.phone)| <= 15 && AllIn(PhoneDigits(p.phone), Digit))
    ensures At(personalInfo, username) in PersonalInfoIssues(env, p)
        <==> !(|p.username| >= 3 && AllIn(p.username, Word))
  {
    PersonalPathReported(env, p, phone);
    PersonalPathReported(env, p, username);
    if AllIn(p.username, Word) {
      JsLengthInPlane(p.username);
    }
    PhoneMeaning(p.phone);
    UsernameMeaning(p.username);
  }

  /** The birth date is reported unless it is a date on or before the age
      boundary; the ZIP code unless it has one of its two shapes. */
  lemma BirthDateAndZipErrors(env: Env, p: PersonalInfo)
    ensures At(personalInfo, dateOfBirth) in PersonalInfoIssues(env, p)
        <==> !(p.dateOfBirth.DateObject? && OnOrBefore(p.dateOfBirth.date, EighteenYearsBefore(env.today)))
    ensures AddressPath(zip) in PersonalInfoIssues(env, p)
        <==> !(|p.address.zip| == 5 && AllIn(p.address.zip, Digit))
             && !(|p.address.zip| == 10 && AllIn(p.address.zip[..5], Digit) && p.address.zip[5] == '-'
                  && AllIn(p.address.zip[6..], Digit))
  {
    PersonalPathReported(env, p, dateOfBirth);
    AddressPathReported(env, p, zip);
    ZipMeaning(p.address.zip);
  }

  /** The numeric bounds and the two lists, as the error map reports them. */
  lemma ProfessionalInfoFieldErrors(p: ProfessionalInfo)
    ensures At(professionalInfo, yearsOfExperience) in ProfessionalInfoIssues(p)
        <==> !(0.0 <= p.yearsOfExperience <= 50.0)
    ensures At(professionalInfo, salaryExpectation) in ProfessionalInfoIssues(p) <==> p.salaryExpectation < 0.0
    ensures At(professionalInfo, experiences) in ProfessionalInfoIssues(p) <==> p.experiences == []
    ensures At(professionalInfo, skills) in ProfessionalInfoIssues(p) <==> p.skills == []
  {
    forall f ensures At(professionalInfo, f) !in EntriesIssues(p.experiences) + SkillsIssues(p.skills) {
      assert |At(professionalInfo, f)| == 2;
    }
  }

  /** Skill `i` is reported exactly when it is empty. */
  lemma SkillFieldErrors(p: ProfessionalInfo, i: nat)
    ensures SkillPath(i) in ProfessionalInfoIssues(p) <==> i < |p.skills| && p.skills[i] == ""
  {
    assert |SkillPath(i)| == 3;
    assert SkillPath(i) !in EntriesIssues(p.experiences);
  }

  /** The additional section's fields, as the error map reports them; the
      optional `otherSource` changes neither the verdict nor the map. */
  lemma AdditionalInfoFieldErrors(a: AdditionalInfo, o: Option<string>)
    ensures At(additionalInfo, howDidYouHear) in AdditionalInfoIssues(a) <==> a.howDidYouHear !in HOW_DID_YOU_HEAR
    ensures At(additionalInfo, availableStartDate) in AdditionalInfoIssues(a) <==> !a.availableStartDate.DateObject?
    ensures At(additionalInfo, reasonForApplying) in AdditionalInfoIssues(a)
        <==> !(50 <= JsLength(a.reasonForApplying) <= 500)
    ensures AdditionalInfoValid(a) <==> AdditionalInfoValid(a.(otherSource := o))
    ensures AdditionalInfoIssues(a) == AdditionalInfoIssues(a.(otherSource := o))
  {
  }

  /** The resume must be a file within the limit and of a document type; the
      other two keys also pass when absent or `undefined`. */
  lemma DocumentsFieldErrors(d: Documents)
    ensures At(documents, resume) in DocumentsIssues(Some(d))
        <==> !(d.resume.Attached? && d.resume.file.size <= MAX_FILE_SIZE && d.resume.file.mime in ACCEPTED_FILE_TYPES)
    ensures At(documents, profilePicture) in DocumentsIssues(Some(d))
        <==> !(d.profilePicture.Absent? || d.profilePicture.Cleared?
               || (d.profilePicture.Attached? && d.profilePicture.file.size <= MAX_FILE_SIZE
                   && d.profilePicture.file.mime in ACCEPTED_IMAGE_TYPES))
    ensures At(documents, coverLetter) in DocumentsIssues(Some(d))
        <==> !(d.coverLetter.Absent? || d.coverLetter.Cleared?
               || (d.coverLetter.Attached? && d.coverLetter.file.size <= MAX_FILE_SIZE
                   && d.coverLetter.file.mime in ACCEPTED_FILE_TYPES))
    ensures DocumentsIssues(None) == {[Key(documents)]}
  {
  }

  // ---------------------------------------------------------------------------
  // Default values
  // ---------------------------------------------------------------------------

  function BlankExperience(today: Date): Experience
  {
    Experience("", "", DateObject(today), Null, false, "")
  }

  /** The defaults, with every `new Date()` read as `today`. The blank
      experience, the empty skill and the empty reason make the second and
      fourth steps fail as well. */
  function DefaultValues(today: Date): (r: FormValues)
    ensures !ProfessionalInfoValid(r.professionalInfo)
    ensures !AdditionalInfoValid(r.additionalInfo)
    ensures r.documents.None?
  {
    var professional := ProfessionalInfo([BlankExperience(today)], [""], 0.0, 0.0);
    assert !ExperienceValid(professional.experiences[0]) by {
      assert JsLength(BlankExperience(today).company) == 0;
    }
    FormValues(
      PersonalInfo("", "", "", "", "", DateObject(today), Address("", "", "", "", "")),
      professional,
      None,
      AdditionalInfo("jobBoard", Some(""), DateObject(today), false, "", Some("")),
      TermsAndReview(true, true, true))
  }

  /** On a fresh form the first step fails, with `personalInfo.firstName`
      among its errors; the consent step, pre-ticked by the defaults, passes. */
  lemma DefaultsOnFirstAndLastStep(env: Env)
    ensures !SectionValid(env, DefaultValues(env.today), 0)
    ensures At(personalInfo, firstName) in SectionIssues(env, DefaultValues(env.today), 0)
    ensures !SectionValid(env, DefaultValues(env.today), 2)
    ensures SectionValid(env, DefaultValues(env.today), 4)
  {
  }
}
