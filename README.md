# Job-application wizard: a verified model of its logic

The application is a five-step browser form for a job application:
personal information, professional background, document uploads,
additional questions, and terms with review. Beneath its markup sits a
small core of logic, and this project models that core in Dafny.

- **Field rules.** The validation schema checks each field: length
  bounds, three anchored patterns (phone, username, ZIP), an
  "at least 18 years old" date test, numeric bounds, file size and type
  checks, and consent flags that must be ticked. A section passes when
  all of its fields pass.
- **Wizard state.** The form context holds the current step index and the
  draft flag. It owns the browser storage slot `job_application_draft` and
  offers `goToStep`, `nextStep`, `prevStep`, `saveDraft`, `loadDraft` and
  `clearDraft`. It also offers the username-availability predicate.
- **Step indicator.** Each step shows a status, and clicking a step may
  move the wizard there.
- **Professional-background handlers.** These add and remove experiences
  and skills, change the dates of one entry, and tick or untick its
  "current position" box.
- **Document drop zones.** These cover the size-unit choice, the labels
  for accepted types, error-message precedence, and dropping and removing
  a file.

Every module has one file:

| file | module | models |
|---|---|---|
| `schema.dfy` | `Schema` | the record, the field and section rules, the error map, the defaults |
| `form_context.dfy` | `FormContext` | the JSON draft round trip, the wizard transitions as functions, the `FormWizard` class that performs them |
| `form_stepper.dfy` | `FormStepper` | `getStepStatus`, `handleStepClick` |
| `professional_info_step.dfy` | `ProfessionalInfoStep` | `splice`, the list and date handlers |
| `documents_step.dfy` | `DocumentsStep` | the drop-zone helpers and the `FileDropzone` class |
| `navigation.dfy` | `Navigation` | runs of user actions, and what they can reach |

## How the model reads the program

Values and their JavaScript behaviour:

- **Dates** are `(year, month, day)` triples. A date-typed slot is a
  `Moment`: absent (`undefined`), `null`, the ISO string that
  `JSON.stringify` makes of a `Date`, or a `Date` object. Only a `Date`
  object passes `z.date()`.
- **Files** are `(name, size, mime)` metadata. A document key holds an
  `Upload`, which has four cases:
  - `Absent`: the key is missing;
  - `Cleared`: the key is present with the value `undefined`;
  - `Attached(file)`: the key holds a `File`;
  - `PlainObject`: the key holds `{}`, which is what `JSON.stringify` makes
    of a `File`.

  The whole `documents` object is missing from the default values, so it
  is an `Option`.
- **The e-mail rule** is the schema library's built-in pattern. It is not
  part of this model, so it is a parameter `Env.isEmail`. "Now" is the
  parameter `Env.today`.
- **Browser storage** is a `map<string, FormValues>`.
  - The stored value is the record as `JSON.stringify` leaves it.
  - Keys holding `undefined` are dropped.
  - Each `File` becomes `PlainObject`.
  - Each `Date` becomes `IsoText`.
  - A storage write that throws is a boolean parameter `fails`.
- **Lengths** that `min` and `max` compare are JavaScript lengths:
  UTF-16 code units, counted by `Schema.JsLength`. A character outside the
  Basic Multilingual Plane counts twice.
- **Validation** is `SectionValid(env, v, step)`, which stands for
  `trigger(stepId)`. An error path is a sequence of record keys
  (`FieldName`, spelled as the record spells them) and list indices. `SectionIssues` gives the paths of the failing fields,
  and `SectionIssuesEmpty` proves that a section passes exactly when that
  set is empty.

Where the program changes state, so does the model:

- **The form context** is the `FormContext.FormWizard` class. Its fields
  are `currentStep`, `isDraftAvailable`, `values` and `storage`. Each
  method is proved against a pure transition function on the `Wizard`
  value (`GoTo`, `Next`, `Prev`, `Save`, `Load`, `Clear`). The lemmas about
  those functions carry the properties.
- **The step and drop-zone handlers** take the shared `FormWizard` and
  update its `values`, just as the source calls `setValue`.
- **`loadDraft`** revives the parsed record field by field, in place.

## Model

| member | source | states |
|---|---|---|
| Schema.EighteenYearsBefore | src/schema/index.ts:37-38 | the age boundary is eighteen years before today, on the same month and day except for 29 February |
| Schema.LeapDayBoundary | src/schema/index.ts:37-38 | on 29 February of a leap year, `setFullYear(year - 18)` rolls over to 1 March of a non-leap year |
| Schema.RunToEndMeaning | src/schema/index.ts:24-33 | a repetition `k{lo,hi}$` matches exactly when the rest of the input has between lo and hi characters, all in class k |
| Schema.PhoneMeaning | src/schema/index.ts:24-26 | `^\+?[0-9]{10,15}$` matches exactly when the input, less one optional leading `+`, is 10 to 15 ASCII digits |
| Schema.UsernameMeaning | src/schema/index.ts:30-33 | `^[a-zA-Z0-9_]+$` matches exactly the non-empty strings of letters, digits and `_` |
| Schema.ZipMeaning | src/schema/index.ts:47-49 | `^\d{5}(-\d{4})?$` matches exactly five digits, or five digits, `-` and four digits |
| Schema.JsLength | src/schema/index.ts:21-22 | the length `min` and `max` compare is between the number of characters and twice that, and equals it when every character is in the Basic Multilingual Plane |
| Schema.OneAstralCharacterIsTwoUnits | src/schema/index.ts:21 | every single character outside the Basic Multilingual Plane is two units long, so a one-character first name of that kind meets `min(2)` |
| Schema.JsLengthOutsidePlane | src/schema/index.ts:132-135 | text made only of characters outside the Basic Multilingual Plane has two code units per character |
| Schema.JsLengthInPlane | src/schema/index.ts:27-33 | text within the Basic Multilingual Plane, such as a username the pattern accepts, has one code unit per character |
| Schema.AdultOnEarlier | src/schema/index.ts:34-42 | the age rule is monotone: a birth date earlier than one accepted is also accepted |
| Schema.SlotMessage | src/schema/index.ts:86-121 | a document key yields no message exactly when it is an optional key left empty, or a file within 5 MB whose type is in the key's list |
| Schema.AdditionalInfoValid | src/schema/index.ts:124-138 | a passing reason for applying has between 25 and 500 characters |
| Schema.AdditionalInfoFieldErrors | src/schema/index.ts:124-138 | `howDidYouHear` is reported unless one of the four sources, the start date unless a `Date`, the reason unless 50 to 500 code units; `otherSource` changes neither the verdict nor the error map |
| Schema.TermsValid | src/schema/index.ts:141-157 | the consent section passes only with all three boxes ticked |
| Schema.SectionValid | src/context/FormContext.tsx:70-75 | what `trigger(stepId)` answers for a step: the documents step passes only with a file as resume, the consent step only with all three boxes ticked |
| Schema.ExperienceIssues | src/schema/index.ts:58-67 | company, position and description are reported under the entry's index exactly when empty, the start date unless it is a `Date`, the end date when it is a string; no other path; no paths exactly when the entry is valid |
| Schema.EntriesIssues | src/schema/index.ts:56-69 | the entries yield no paths exactly when every entry is valid |
| Schema.SkillsIssues | src/schema/index.ts:71-73 | a skill path is reported exactly for each empty skill |
| Schema.ProfessionalInfoIssuesEmpty | src/schema/index.ts:55-83 | the professional section passes exactly when its error map is empty |
| Schema.SectionIssuesEmpty | src/schema/index.ts:18-158 | every step's section passes exactly when its error map is empty |
| Schema.PersonalInfoValidByKeys | src/schema/index.ts:20-52 | the personal section passes exactly when each of its keys, and each address key, keeps its own rule |
| Schema.PersonalPathReported | src/schema/index.ts:20-42 | a personal key's path is in the error map exactly when that key breaks its rule |
| Schema.AddressPathReported | src/schema/index.ts:43-51 | an address key's path is in the error map exactly when that key breaks its rule |
| Schema.NameFieldErrors | src/schema/index.ts:21-22 | first and last name are reported exactly when shorter than two code units: always when empty, never at two characters or more |
| Schema.PatternFieldErrors | src/schema/index.ts:24-33 | the phone is reported unless it is 10 to 15 digits after an optional `+`; the username unless it is at least 3 letters, digits or `_` (all one unit each) |
| Schema.BirthDateAndZipErrors | src/schema/index.ts:34-49 | the birth date is reported unless it is a date on or before the age boundary; the ZIP unless it is five digits, or five digits, `-` and four digits |
| Schema.ProfessionalInfoFieldErrors | src/schema/index.ts:55-83 | years are reported unless in [0,50]; salary when negative; experiences when the list is empty; skills when the list is empty |
| Schema.SkillFieldErrors | src/schema/index.ts:71-72 | the path of skill i is reported exactly when that skill exists and is empty |
| Schema.DocumentsFieldErrors | src/schema/index.ts:86-121 | the resume must be a file within the limit with a document type; the picture and cover letter also pass when empty; a missing documents object is reported as a whole |
| Schema.DefaultsOnFirstAndLastStep | src/schema/index.ts:164-208 | on the default values, step 0 fails with `firstName` among its errors and step 2 fails; step 4 passes because the defaults tick all three terms |
| Schema.DefaultValues | src/schema/index.ts:164-208 | the defaults hold no documents object, and their blank experience and empty reason make the professional and additional sections fail |
| FormContext.Clamp | src/context/FormContext.tsx:62-65 | `max(0, min(step, 4))` is in range, keeps an in-range step, and sends low steps to 0 and high steps to 4 |
| FormContext.Serialize | src/context/FormContext.tsx:93-103 | what is stored has the shape JSON leaves: no `Date` objects and no `File`s |
| FormContext.Revive | src/context/FormContext.tsx:112-132 | after the revival no date is held as text and no experience date is `null`; the list of experiences keeps its length |
| FormContext.DraftRoundTrip | src/context/FormContext.tsx:106-142 | after saving and loading, each field is what JSON and the revival make of it: dates come back, a falsy entry date becomes `undefined`, files become `{}`, `undefined` keys vanish |
| FormContext.DraftExactIff | src/context/FormContext.tsx:93-142 | saving and loading gives back the same record exactly when it holds no file, no cleared key, no `null` entry date and no date held as text |
| FormContext.LoadedRecordStable | src/context/FormContext.tsx:93-142 | a loaded record survives any further save and load unchanged |
| FormContext.LoadedDocumentsInvalid | src/context/FormContext.tsx:106-142 | a loaded draft never passes the documents step, because files do not survive JSON |
| FormContext.LoadedSectionsStillValid | src/context/FormContext.tsx:106-142 | every other step that passed before saving still passes after loading |
| FormContext.Mount | src/context/FormContext.tsx:45-59 | the wizard starts on step 0 with the default values, and the flag tells whether the storage holds a draft |
| FormContext.GoTo | src/context/FormContext.tsx:62-65 | only the step changes, and it becomes the clamped target |
| FormContext.Save | src/context/FormContext.tsx:93-103 | on success the slot holds the serialized record, the flag is set and the result is true; on failure nothing changes and the result is false |
| FormContext.Next | src/context/FormContext.tsx:68-83 | on the last step nothing happens; otherwise the step moves by exactly one exactly when the section validates, then the draft is saved; a failed validation changes nothing |
| FormContext.Prev | src/context/FormContext.tsx:86-90 | back by one without validating, or nothing on step 0 |
| FormContext.Load | src/context/FormContext.tsx:106-142 | with no draft, nothing changes and the result is false; otherwise the revived draft replaces the whole record |
| FormContext.Clear | src/context/FormContext.tsx:145-148 | the slot is removed, other keys are kept and the flag is cleared |
| FormContext.SaveThenLoad | src/context/FormContext.tsx:93-142 | loading right after a save yields the revived serialization of the record that was saved |
| FormContext.Lower | src/context/FormContext.tsx:158 | ASCII lower-casing keeps the length and maps each character by itself |
| FormContext.UnavailableWithin | src/context/FormContext.tsx:158 | a name stays unavailable whatever is written around it |
| FormContext.AvailabilityIgnoresCase | src/context/FormContext.tsx:158 | availability does not depend on letter case |
| FormContext.UsernameAvailable | src/context/FormContext.tsx:158 | a name shorter than five characters is always available, since it cannot contain "taken" |
| FormContext.IsFirstStep | src/context/FormContext.tsx:167 | the first step is exactly the one `prevStep` does not leave |
| FormContext.IsLastStep | src/context/FormContext.tsx:168 | the last step is exactly the one a `goToStep` one further does not leave |
| FormContext.FormWizard.constructor | src/context/FormContext.tsx:45-59 | the provider's state after mounting |
| FormContext.FormWizard.GoToStep | src/context/FormContext.tsx:62-65 | performs `GoTo` |
| FormContext.FormWizard.SaveDraft | src/context/FormContext.tsx:93-103 | performs `Save` and returns its answer |
| FormContext.FormWizard.NextStep | src/context/FormContext.tsx:68-83 | performs `Next` |
| FormContext.FormWizard.PrevStep | src/context/FormContext.tsx:86-90 | performs `Prev` |
| FormContext.FormWizard.LoadDraft | src/context/FormContext.tsx:106-142 | performs `Load`, reviving the parsed record field by field |
| FormContext.FormWizard.ClearDraft | src/context/FormContext.tsx:145-148 | performs `Clear` |
| FormStepper.DocumentKeyCount | src/components/FormStepper.tsx:32 | `Object.keys(documents).length` is at most 3, and is 0 exactly when every key is absent |
| FormStepper.GetStepStatus | src/components/FormStepper.tsx:22-43 | after a successful submit, every step is completed; otherwise a step is current, upcoming, completed or incomplete exactly when it is equal, later, earlier with data, or earlier without data |
| FormStepper.CompletedWithoutValidity | src/components/FormStepper.tsx:26-35 | "completed" is a presence check: a step that fails validation still shows as completed |
| FormStepper.RemovedResumeAcrossDraft | src/components/FormStepper.tsx:26-35 | when the resume was the only document key, removing it leaves the key, so the documents step shows completed; after a save and load the key is gone and it shows incomplete |
| FormStepper.ClickStep | src/components/FormStepper.tsx:46-63 | a click never moves forward and changes only the step; it moves to an earlier step exactly when the current one validates; the current step stays put |
| FormStepper.HandleStepClick | src/components/FormStepper.tsx:46-63 | performs `ClickStep` on the shared wizard |
| ProfessionalInfoStep.SpliceOneInRange | src/components/steps/ProfessionalInfoStep.tsx:43 | `splice(i, 1)` on an index in range removes exactly entry i, keeps the rest in order and loses nothing else |
| ProfessionalInfoStep.SpliceOneOutOfRange | src/components/steps/ProfessionalInfoStep.tsx:43 | a start past the end removes nothing; a negative start counts from the end |
| ProfessionalInfoStep.SpliceOne | src/components/steps/ProfessionalInfoStep.tsx:43 | `splice(start, 1)` removes at most one element and adds none: what is left is a sub-multiset of the list |
| ProfessionalInfoStep.AddedExperience | src/components/steps/ProfessionalInfoStep.tsx:21-37 | one blank entry (today, `null` end date, not current) is appended and earlier entries are kept |
| ProfessionalInfoStep.WithoutExperience | src/components/steps/ProfessionalInfoStep.tsx:40-48 | with more than one entry, exactly entry i goes; with one, nothing changes, so the list never drops below one |
| ProfessionalInfoStep.AddedSkill | src/components/steps/ProfessionalInfoStep.tsx:54-58 | an empty skill is appended |
| ProfessionalInfoStep.WithoutSkill | src/components/steps/ProfessionalInfoStep.tsx:61-69 | the same guard and splice as for experiences |
| ProfessionalInfoStep.EditsKeepOne | src/components/steps/ProfessionalInfoStep.tsx:21-69 | no sequence of add and remove clicks, on either list and at any indices, takes either list below one entry; years and salary never change |
| ProfessionalInfoStep.RemovalKeepsValid | src/components/steps/ProfessionalInfoStep.tsx:40-69 | removing from a valid section keeps it valid |
| ProfessionalInfoStep.AddedExperienceInvalid | src/components/steps/ProfessionalInfoStep.tsx:21-37 | after an entry is added, the step fails until the entry is filled |
| ProfessionalInfoStep.WithDate | src/components/steps/ProfessionalInfoStep.tsx:72-82 | the chosen field of entry i gets the date, or today when it is `null`; nothing else changes |
| ProfessionalInfoStep.WithCurrent | src/components/steps/ProfessionalInfoStep.tsx:85-100 | ticking sets `current` and a `null` end date; unticking keeps a truthy end date or sets today; nothing else changes |
| ProfessionalInfoStep.CurrentChangeCouples | src/components/steps/ProfessionalInfoStep.tsx:85-100 | after either answer, a current entry has a `null` end date and a past one has an end date |
| ProfessionalInfoStep.DateChangeKeepsCoupling | src/components/steps/ProfessionalInfoStep.tsx:72-82 | changing a start date, or a past entry's end date, keeps the coupling; an end date on a current entry would break it |
| ProfessionalInfoStep.BlankEntryUncoupled | src/components/steps/ProfessionalInfoStep.tsx:26-33 | a freshly added entry is a past position without an end date |
| ProfessionalInfoStep.AddExperience | src/components/steps/ProfessionalInfoStep.tsx:21-37 | writes `AddedExperience` into the form |
| ProfessionalInfoStep.RemoveExperience | src/components/steps/ProfessionalInfoStep.tsx:40-48 | writes `WithoutExperience` into the form |
| ProfessionalInfoStep.AddSkill | src/components/steps/ProfessionalInfoStep.tsx:54-58 | writes `AddedSkill` into the form |
| ProfessionalInfoStep.RemoveSkill | src/components/steps/ProfessionalInfoStep.tsx:61-69 | writes `WithoutSkill` into the form |
| ProfessionalInfoStep.HandleDateChange | src/components/steps/ProfessionalInfoStep.tsx:72-82 | writes `WithDate` into the form |
| ProfessionalInfoStep.HandleCurrentChange | src/components/steps/ProfessionalInfoStep.tsx:85-100 | writes `WithCurrent` into the form |
| DocumentsStep.DropzoneAgreesWithSchema | src/components/steps/steps.tsx:9-20 | each zone's type list and size limit equal the schema's, so a zone lets a file through exactly when the schema accepts it for that key |
| DocumentsStep.DropzoneAccepts | src/components/steps/steps.tsx:86-97 | a file the zone lets through draws no message from the schema for its key |
| DocumentsStep.FileSizeUnit | src/components/steps/steps.tsx:23-27 | bytes below 1024, KB below 1048576, MB from there on |
| DocumentsStep.FileSizeUnitScale | src/components/steps/steps.tsx:23-27 | KB and MB are chosen only for sizes of at least one of that unit; bytes and KB only for sizes below 1024 of that unit |
| DocumentsStep.FileSizeUnitMonotone | src/components/steps/steps.tsx:23-27 | a larger size never gets a smaller unit |
| DocumentsStep.MaxSizeInMegabytes | src/components/steps/steps.tsx:20 | the limit is shown in MB as five megabytes |
| DocumentsStep.TypeLabelKeepsOnlyUnknown | src/components/steps/steps.tsx:119-134 | a type is shown as it is exactly when it is none of the seven known types |
| DocumentsStep.TypeLabel | src/components/steps/steps.tsx:119-134 | each type gets one of the five short labels or is shown as it is |
| DocumentsStep.TypeLabels | src/components/steps/steps.tsx:117-135 | one label per type, in order |
| DocumentsStep.JoinLength | src/components/steps/steps.tsx:136 | the joined text is as long as the parts together plus one separator between each pair |
| DocumentsStep.Join | src/components/steps/steps.tsx:136 | the joined text begins with the first part |
| DocumentsStep.JoinAppend | src/components/steps/steps.tsx:136 | appending a part appends one separator and that part, so the text is the parts in order with a separator between neighbours |
| DocumentsStep.DisplayAcceptedTypes | src/components/steps/steps.tsx:117-136 | the line begins with the first type's label and is as long as the labels plus `, ` between each pair |
| DocumentsStep.DisplayedImageTypes | src/components/steps/steps.tsx:117-136 | the picture zone reads "JPG, JPG, PNG, WebP" |
| DocumentsStep.DisplayedDocumentTypes | src/components/steps/steps.tsx:117-136 | the resume and cover-letter zones read "PDF, DOC/DOCX, DOC/DOCX" |
| DocumentsStep.ErrorMessage | src/components/steps/steps.tsx:100-105 | the schema message wins; else the first reason of the first rejected file; else none |
| DocumentsStep.ErrorShownIffRefused | src/components/steps/steps.tsx:100-105 | without a rejected drop, and with the error map holding the schema's verdict on the key, a zone shows a message exactly when the schema refuses the key |
| DocumentsStep.SetUpload | src/components/steps/steps.tsx:73-79 | writing one document key creates the documents object if needed and leaves the other keys as they were |
| DocumentsStep.DroppedFileAccepted | src/components/steps/steps.tsx:70-83 | a file the zone lets through is accepted for its key, and a dropped resume makes the step pass when the other keys pass |
| DocumentsStep.RemovedResumeRefused | src/components/steps/steps.tsx:108-114 | removing the resume makes the documents step fail |
| DocumentsStep.FileDropzone.constructor | src/components/steps/steps.tsx:39-56 | a zone for one key of the shared form, with no preview |
| DocumentsStep.FileDropzone.OnDrop | src/components/steps/steps.tsx:70-83 | only the first file is stored under the zone's key; an empty drop changes nothing |
| DocumentsStep.FileDropzone.HandleRemove | src/components/steps/steps.tsx:108-114 | the key is set to `undefined` and the preview is cleared |
| Navigation.Apply | src/context/FormContext.tsx:62-148 | under any one action, the step stays in range and the flag stays truthful; only a validated Next moves forward, by exactly one; loading a stored draft leaves the documents step failing |
| Navigation.Run | src/context/FormContext.tsx:62-148 | any sequence of actions keeps the step in range, the flag truthful and the stored draft JSON-shaped |
| Navigation.PassedWereValid | src/context/FormContext.tsx:68-83 | each step a run leaves by Next had a passing section at that moment |
| Navigation.ReachedOnlyThroughNext | src/context/FormContext.tsx:62-90 | every step between the start and the end of a run was left by a Next |
| Navigation.StepsBeforeCurrentWereValidated | src/context/FormContext.tsx:62-90 | from step 0, standing on step k means every earlier step passed validation when Next left it |

## Behaviour worth knowing

- **`otherSource` is never required.** The schema keeps it optional
  whatever `howDidYouHear` says (`src/schema/index.ts:126`,
  `Schema.AdditionalInfoFieldErrors`). Only the view
  hides or shows the input.
- **The step indicator checks presence, not validity.** "Completed" means
  that the section's value has at least one key
  (`src/components/FormStepper.tsx:32`). Every section but the documents
  always has keys, so every earlier step shows completed, valid or not
  (`FormStepper.CompletedWithoutValidity`).
- **A saved and loaded draft is not the same record.**
  - An experience whose `endDate` is `null` comes back with `undefined`.
  - A `File` comes back as `{}`.
  - A key cleared to `undefined` disappears.

  `FormContext.DraftExactIff` states exactly when the round trip is
  exact, and `FormContext.LoadedRecordStable` shows that the loss happens
  once only. As a result, a loaded draft never passes the documents step
  (`FormContext.LoadedDocumentsInvalid`). It can still stand on a later
  step, because loading does not change `currentStep`.
- **A new experience entry breaks the "current ⇔ null end date"
  coupling.** A freshly added entry is not current, yet its end date is
  `null` (`ProfessionalInfoStep.BlankEntryUncoupled`). The coupling holds
  only once the box has been toggled
  (`ProfessionalInfoStep.CurrentChangeCouples`).
- **Length limits count UTF-16 code units.** A first name made of one
  character from outside the Basic Multilingual Plane passes `min(2)`
  (`Schema.OneAstralCharacterIsTwoUnits`). A reason for applying of 25
  such characters is 50 units long (`Schema.JsLengthOutsidePlane`), so it
  meets the 50-to-500 bound (`Schema.AdditionalInfoFieldErrors`).
- **The default values tick all three consent boxes.** The review step
  therefore passes on a fresh form (`Schema.DefaultsOnFirstAndLastStep`).

## Left out

- JSX rendering, styling and the banner, review and additional-question
  views: they are presentational.
- DocumentsStep.ErrorShownIffRefused: assumes the error map holds the
  schema's current verdict on the key, that is, the key has been validated
  since the last `reset`. The error map is not part of the wizard state:
  `loadDraft`'s `reset` clears it, and only `trigger` or a `setValue` with
  `shouldValidate` fills a key. After a load, a refused resume shows no
  message until it is validated again.
- react-hook-form and the zod resolver: `trigger` becomes `SectionValid`
  and `setValue`/`reset` become direct updates of `values`. Errors are
  shown as soon as a value is set (`shouldValidate`); that display is not
  modelled.
- Zod's built-in e-mail pattern: it is a parameter (`Env.isEmail`).
- `localStorage` and `JSON.stringify`/`JSON.parse`: storage is a map, and
  a failed write is the `fails` flag.
  - A failing read, and a stored text that is not valid JSON, are not
    modelled: `loadDraft` only reads what `saveDraft` wrote.
  - `FormContext.Load` assumes that the stored ISO strings name the day
    they were made from.
- The one-second delay of the username check, and the race between its
  answer and further typing: these are timing. Only the
  "contains `taken`" predicate is modelled.
  - `FormContext.UsernameAvailable` lower-cases ASCII letters only.
    JavaScript's `toLowerCase` also maps other scripts.
- FormContext.Lower: lower-cases ASCII letters only, one character for
  one. JavaScript's `toLowerCase` also maps other scripts, and some
  characters (`"İ"`) become two code units, so the length can change.
- The 30-second auto-save timer: this is timer plumbing. A timer tick is
  the same transition as the Save button (`Navigation.Apply` on
  `SaveClicked`).
- The asynchronous gap in `nextStep` and `handleStepClick` between
  `trigger` and the step update: each is modelled as one atomic action.
- `toFixed(1)` digits, `Intl.DateTimeFormat` and `toLocaleString`: only
  the unit of `formatFileSize` is modelled.
- Time zones, times of day and invalid `Date` objects: a date is a day,
  and today is a parameter.
- Numbers are `real`, so `NaN` and infinities are not modelled.
- Object-URL previews: `FileDropzone.preview` is only cleared, never
  created.
- react-dropzone's own filtering: it is modelled only as
  `DocumentsStep.DropzoneAccepts`, which checks the listed types and the
  size limit. The reasons it gives for a rejection are inputs to
  `DocumentsStep.ErrorMessage`.
- The handlers copy the experiences array but write through the entry
  objects it shares with the form state. The model uses values, so this
  aliasing is not captured.
- `ProfessionalInfoStep.HandleDateChange` and
  `ProfessionalInfoStep.HandleCurrentChange` require an index in range:
  the view only calls them for rendered entries.
