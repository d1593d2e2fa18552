/** The document-upload step: the helpers each file drop zone uses, and the
    drop zone's two handlers, which write one document key of the form. */
module DocumentsStep {
  import opened Schema
  import opened FormContext

  // ---------------------------------------------------------------------------
  // The drop zones' configuration
  // ---------------------------------------------------------------------------

  const DROPZONE_IMAGE_TYPES: seq<string> := ["image/jpeg", "image/jpg", "image/png", "image/webp"]

  const DROPZONE_FILE_TYPES: seq<string> :=
    ["application/pdf",
     "application/msword",
     "application/vnd.openxmlformats-officedocument.wordprocessingml.document"]

  const DROPZONE_MAX_SIZE: nat := 5 * 1024 * 1024

  /** The type list each of the three drop zones is given. */
  function DropzoneTypes(slot: Slot): seq<string>
  {
    if slot == ProfilePicture then DROPZONE_IMAGE_TYPES else DROPZONE_FILE_TYPES
  }

  /** The drop zone's own filter: a listed type and at most `maxSize` bytes.
      A file it lets through draws no message from the schema. */
  predicate DropzoneAccepts(slot: Slot, f: FileMeta)
    ensures DropzoneAccepts(slot, f) ==> SlotMessage(slot, Attached(f)) == None
  {
    f.mime in DropzoneTypes(slot) && f.size <= DROPZONE_MAX_SIZE
  }

  /** The drop zones are configured with the schema's constants, so a file
      reaches the form exactly when the schema would accept it in that slot. */
  lemma DropzoneAgreesWithSchema(slot: Slot, f: FileMeta)
    ensures DropzoneTypes(slot) == SlotTypes(slot) && DROPZONE_MAX_SIZE == MAX_FILE_SIZE
    ensures DropzoneAccepts(slot, f) <==> UploadAccepted(slot, Attached(f))
  {
  }

  // ---------------------------------------------------------------------------
  // formatFileSize: the unit
  // ---------------------------------------------------------------------------

  datatype SizeUnit = Bytes | KB | MB
  {
    function Divisor(): (n: nat)
      ensures n >= 1
    {
      match this
      case Bytes => 1
      case KB => 1024
      case MB => 1024 * 1024
    }
  }

  /** The unit `formatFileSize` prints a size in. */
  function FileSizeUnit(bytes: nat): (u: SizeUnit)
    ensures u == Bytes <==> bytes < 1024
    ensures u == KB <==> 1024 <= bytes < 1024 * 1024
    ensures u == MB <==> bytes >= 1024 * 1024
  {
    if bytes < 1024 then Bytes
    else if bytes < 1024 * 1024 then KB
    else MB
  }

  /** The unit is the largest one that keeps the printed number at least 1:
      below the next unit, the number stays under 1024. */
  lemma FileSizeUnitScale(bytes: nat)
    ensures FileSizeUnit(bytes) == Bytes || FileSizeUnit(bytes).Divisor() <= bytes
    ensures FileSizeUnit(bytes) == MB || bytes < 1024 * FileSizeUnit(bytes).Divisor()
  {
  }

  function UnitRank(u: SizeUnit): nat
  {
    match u
    case Bytes => 0
    case KB => 1
    case MB => 2
  }

  /** A larger size never gets a smaller unit. */
  lemma FileSizeUnitMonotone(a: nat, b: nat)
    requires a <= b
    ensures UnitRank(FileSizeUnit(a)) <= UnitRank(FileSizeUnit(b))
  {
  }

  /** The size limit shown under each zone reads as five megabytes. */
  lemma MaxSizeInMegabytes()
    ensures FileSizeUnit(DROPZONE_MAX_SIZE) == MB && DROPZONE_MAX_SIZE == 5 * MB.Divisor()
  {
  }

  // ---------------------------------------------------------------------------
  // displayAcceptedTypes
  // ---------------------------------------------------------------------------

  const KNOWN_TYPES: seq<string> := DROPZONE_IMAGE_TYPES + DROPZONE_FILE_TYPES

  /** The label the `switch` gives one MIME type: one of five short labels,
      or the type itself. */
  function TypeLabel(mime: string): (r: string)
    ensures r in ["JPG", "PNG", "WebP", "PDF", "DOC/DOCX"] || r == mime
  {
    if mime == "image/jpeg" || mime == "image/jpg" then "JPG"
    else if mime == "image/png" then "PNG"
    else if mime == "image/webp" then "WebP"
    else if mime == "application/pdf" then "PDF"
    else if mime == "application/msword"
         || mime == "application/vnd.openxmlformats-officedocument.wordprocessingml.document" then "DOC/DOCX"
    else mime
  }

  /** Known types get a short label; every other type is shown as it is. */
  lemma TypeLabelKeepsOnlyUnknown(mime: string)
    ensures TypeLabel(mime) == mime <==> mime !in KNOWN_TYPES
  {
    if mime in KNOWN_TYPES {
      assert mime in {"image/jpeg", "image/jpg", "image/png", "image/webp", "application/pdf", "application/msword",
                      "application/vnd.openxmlformats-officedocument.wordprocessingml.document"};
    }
  }

  /** The `map` over the accepted types. */
  function TypeLabels(types: seq<string>): (r: seq<string>)
    ensures |r| == |types|
    ensures forall i :: 0 <= i < |types| ==> r[i] == TypeLabel(types[i])
  {
    seq(|types|, i requires 0 <= i < |types| => TypeLabel(types[i]))
  }

  /** `parts.join(separator)`: the text starts with the first part. */
  function Join(parts: seq<string>, separator: string): (r: string)
    ensures parts != [] ==> parts[0] <= r
    decreases |parts|
  {
    if parts == [] then ""
    else if |parts| == 1 then parts[0]
    else parts[0] + separator + Join(parts[1..], separator)
  }

  /** The joined text is as long as its parts and separators together. */
  lemma {:induction false} JoinLength(parts: seq<string>, separator: string)
    ensures parts != [] ==> |Join(parts, separator)| == SumOfLengths(parts) + (|parts| - 1) * |separator|
    decreases |parts|
  {
    if |parts| > 1 {
      JoinLength(parts[1..], separator);
    }
  }

  /** Appending a part to a non-empty list appends one separator and the
      part; with `Join([x]) == x` this fixes the joined text as the parts in
      order with one separator between neighbours. */
  lemma {:induction false} JoinAppend(parts: seq<string>, x: string, separator: string)
    requires parts != []
    ensures Join(parts + [x], separator) == Join(parts, separator) + separator + x
    decreases |parts|
  {
    var whole := parts + [x];
    assert whole[0] == parts[0] && whole[1..] == parts[1..] + [x];
    if |parts| > 1 {
      JoinAppend(parts[1..], x, separator);
    } else {
      assert whole[1..] == [x];
    }
  }

  function SumOfLengths(parts: seq<string>): nat
    decreases |parts|
  {
    if parts == [] then 0 else |parts[0]| + SumOfLengths(parts[1..])
  }

  /** The line under a zone: the labels joined by ", ", as long as the
      labels and one separator between each pair. */
  function DisplayAcceptedTypes(types: seq<string>): (r: string)
    ensures types != [] ==> TypeLabel(types[0]) <= r
    ensures types != [] ==> |r| == SumOfLengths(TypeLabels(types)) + 2 * (|types| - 1)
  {
    JoinLength(TypeLabels(types), ", ");
    Join(TypeLabels(types), ", ")
  }

  /** The line under the profile-picture zone repeats "JPG", because two
      image types share it. */
  lemma DisplayedImageTypes()
    ensures DisplayAcceptedTypes(DROPZONE_IMAGE_TYPES) == "JPG, JPG, PNG, WebP"
  {
    assert TypeLabels(DROPZONE_IMAGE_TYPES) == ["JPG"] + ["JPG"] + ["PNG"] + ["WebP"];
    JoinAppend(["JPG"], "JPG", ", ");
    JoinAppend(["JPG"] + ["JPG"], "PNG", ", ");
    JoinAppend(["JPG"] + ["JPG"] + ["PNG"], "WebP", ", ");
  }

  /** The line under the resume and cover-letter zones repeats "DOC/DOCX",
      because the two Word types share it. */
  lemma DisplayedDocumentTypes()
    ensures DisplayAcceptedTypes(DROPZONE_FILE_TYPES) == "PDF, DOC/DOCX, DOC/DOCX"
  {
    assert TypeLabels(DROPZONE_FILE_TYPES) == ["PDF"] + ["DOC/DOCX"] + ["DOC/DOCX"];
    JoinAppend(["PDF"], "DOC/DOCX", ", ");
    JoinAppend(["PDF"] + ["DOC/DOCX"], "DOC/DOCX", ", ");
  }

  // ---------------------------------------------------------------------------
  // errorMessage
  // ---------------------------------------------------------------------------

  /** One file the drop zone turned away, with its reasons. */
  datatype Rejection = Rejection(file: FileMeta, errors: seq<string>)

  /** The schema's message for this key, else the first reason of the first
      rejected file, else nothing. */
  function ErrorMessage(schemaError: Option<string>, fileRejections: seq<Rejection>): (r: Option<string>)
    requires fileRejections != [] ==> fileRejections[0].errors != []
    ensures schemaError.Some? ==> r == schemaError
    ensures schemaError.None? && fileRejections != [] ==> r == Some(fileRejections[0].errors[0])
    ensures r.None? <==> schemaError.None? && fileRejections == []
  {
    if schemaError.Some? then schemaError
    else if fileRejections != [] then Some(fileRejections[0].errors[0])
    else None
  }

  /** The schema's verdict on what the key of a drop zone holds now: none
      while the whole documents object is missing. The error map holds this
      message once the key has been validated since the last `reset`. */
  function SchemaError(documents: Option<Documents>, slot: Slot): Option<string>
  {
    if documents.None? then None else SlotMessage(slot, UploadOf(documents.value, slot))
  }

  /** With no rejected drop, a zone shows a message exactly when the schema
      refuses what its key holds. */
  lemma ErrorShownIffRefused(d: Documents, slot: Slot)
    ensures ErrorMessage(SchemaError(Some(d), slot), []).Some? <==> !UploadAccepted(slot, UploadOf(d, slot))
  {
  }

  // ---------------------------------------------------------------------------
  // The drop zone's handlers
  // ---------------------------------------------------------------------------

  /** `setValue("documents.<slot>", u)`: the documents object is created if
      missing, and only this key changes. */
  function SetUpload(documents: Option<Documents>, slot: Slot, u: Upload): (r: Documents)
    ensures UploadOf(r, slot) == u
    ensures forall other :: other != slot ==>
      UploadOf(r, other) == if documents.None? then Absent else UploadOf(documents.value, other)
  {
    var d := if documents.None? then Documents(Absent, Absent, Absent) else documents.value;
    match slot
    case Resume => d.(resume := u)
    case ProfilePicture => d.(profilePicture := u)
    case CoverLetter => d.(coverLetter := u)
  }

  /** Dropping a file the zone lets through makes its key acceptable to the
      schema; the documents step then passes as soon as the resume does and
      the other keys are acceptable. */
  lemma DroppedFileAccepted(documents: Option<Documents>, slot: Slot, f: FileMeta)
    requires DropzoneAccepts(slot, f)
    ensures UploadAccepted(slot, UploadOf(SetUpload(documents, slot, Attached(f)), slot))
    ensures slot == Resume && (documents.None? || (UploadAccepted(ProfilePicture, documents.value.profilePicture)
                                                 && UploadAccepted(CoverLetter, documents.value.coverLetter)))
            ==> DocumentsValid(Some(SetUpload(documents, slot, Attached(f))))
  {
    DropzoneAgreesWithSchema(slot, f);
    if slot == Resume {
      assert UploadOf(SetUpload(documents, slot, Attached(f)), ProfilePicture)
          == if documents.None? then Absent else documents.value.profilePicture;
      assert UploadOf(SetUpload(documents, slot, Attached(f)), CoverLetter)
          == if documents.None? then Absent else documents.value.coverLetter;
    }
  }

  /** Removing the resume makes the documents step fail. */
  lemma RemovedResumeRefused(documents: Option<Documents>)
    ensures !DocumentsValid(Some(SetUpload(documents, Resume, Cleared)))
  {
  }

  class FileDropzone {
    const name: Slot
    const form: FormWizard
    /** The image preview URL; creating it is not part of this model. */
    var preview: Option<string>

    constructor (name: Slot, form: FormWizard)
      ensures this.name == name && this.form == form && preview.None?
    {
      this.name := name;
      this.form := form;
      preview := None;
    }

    /** `onDrop`: only the first accepted file is kept; an empty drop changes
        nothing. */
    method OnDrop(acceptedFiles: seq<FileMeta>)
      modifies form
      ensures acceptedFiles == [] ==> form.State() == old(form.State())
      ensures acceptedFiles != [] ==> form.State() == old(form.State()).(values :=
        old(form.values).(documents := Some(SetUpload(old(form.values.documents), name, Attached(acceptedFiles[0])))))
    {
      if acceptedFiles != [] {
        var file := acceptedFiles[0];
        form.values := form.values.(documents := Some(SetUpload(form.values.documents, name, Attached(file))));
      }
    }

    /** `handleRemove`: the key is set to `undefined` and the preview cleared. */
    method HandleRemove()
      modifies form, this
      ensures preview.None?
      ensures form.State() == old(form.State()).(values :=
        old(form.values).(documents := Some(SetUpload(old(form.values.documents), name, Cleared))))
    {
      form.values := form.values.(documents := Some(SetUpload(form.values.documents, name, Cleared)));
      preview := None;
    }
  }
}
