/** The configuration-driven intake form (TerminalFormChat): its field and stage
    definitions, the per-field validity rules of `isStageValid`, the accept masks
    of file fields and the lookup of a field by name. */
module TerminalFields {
  import opened Wrappers
  import opened Text

  datatype FieldType =
    | TextField | EmailField | PhoneField | UrlField
    | TextareaField | RadioField | SelectField | FileField

  datatype FieldOption = FieldOption(value: string, caption: string)

  /** One input of a stage. Absent optional properties are `None` (or `false` for
      `required`, the empty list for `options`). */
  datatype FormField = FormField(
    name: string,
    kind: FieldType,
    required: bool,
    minLength: Option<int>,
    options: seq<FieldOption>,
    toggleLabel: Option<string>,
    accept: Option<string>,
    multiple: bool,
    maxSizeMB: Option<nat>)

  /** One step of the conversation; a stage without `fields` has the empty list. */
  datatype FormStage = FormStage(
    id: string,
    prompt: string,
    historyLabel: string,
    fields: seq<FormField>,
    advanceButton: bool)

  /** The name, size in bytes and MIME type (`file.type`, possibly empty) of a
      picked file. */
  datatype FileInfo = FileInfo(name: string, size: nat, mime: string)

  /** The files currently attached to one field. The session keeps these in the
      order the fields were first given files, as the keys of a JavaScript object. */
  datatype Upload = Upload(field: string, files: seq<FileInfo>)

  /** What `parsePhoneNumber` yields for a text it can read. */
  datatype PhoneNumber = PhoneNumber(number: string, valid: bool)

  /** The foreign libraries, taken as given functions: libphonenumber's
      `parsePhoneNumber(text, country)` and `formatPhoneNumberIntl(number)`, and
      the hostname of the WHATWG `URL` parser (`None` when the constructor throws). */
  datatype Libraries = Libraries(
    parsePhone: (string, string) -> Option<PhoneNumber>,
    formatPhoneIntl: string -> string,
    urlHostname: string -> Option<string>)

  /** `formData[name] || ''` */
  function ValueOf(formData: map<string, string>, name: string): string {
    if name in formData then formData[name] else ""
  }

  /** `toggledFields[name]` is truthy: the user opted the field out. */
  predicate IsToggledOff(toggled: map<string, bool>, name: string) {
    name in toggled && toggled[name]
  }

  /** `uploadedFiles[name] || []` over the association list of uploads. */
  function FilesOf(uploads: seq<Upload>, name: string): seq<FileInfo> {
    if uploads == [] then []
    else if uploads[0].field == name then uploads[0].files
    else FilesOf(uploads[1..], name)
  }

  /** Default per-file cap of a file field, in megabytes. */
  const DefaultMaxSizeMB: nat := 10
  const BytesPerMB: nat := 1024 * 1024

  /** `(maxSizeMB ?? 10) * 1024 * 1024` */
  function MaxBytes(maxSizeMB: Option<nat>): nat {
    maxSizeMB.GetOr(DefaultMaxSizeMB) * BytesPerMB
  }

  /** The comma-separated masks of an accept string, each trimmed. */
  function Masks(accept: string): seq<string> {
    var parts := Split(accept, ',');
    seq(|parts|, k requires 0 <= k < |parts| => Trim(parts[k]))
  }

  // One mask of `isStageValid`: a mask ending in "/" + "*" is a prefix test on the
  // MIME type after that suffix's first occurrence is removed from the mask (the
  // string `replace` of JavaScript); any other mask is an exact match. The test
  // for the mask "*" + "/" + "*" in the second branch is never reached: that
  // mask ends in "/" + "*" and is read as the prefix "*"
  // (TerminalPicker.WildcardMaskIsPrefixStar).
  predicate MimeMaskAccepts(mask: string, mime: string) {
    if EndsWith(mask, "/*") then StartsWith(mime, ReplaceFirst(mask, "/*", ""))
    else mime == mask || mask == "*/*"
  }

  /** The type check of `isStageValid`: a missing or empty accept allows any type,
      otherwise some mask must accept the MIME type. */
  predicate TypeAccepted(accept: Option<string>, mime: string) {
    accept.None? || accept.value == "" ||
    (var masks := Masks(accept.value);
     exists k :: 0 <= k < |masks| && MimeMaskAccepts(masks[k], mime))
  }

  /** Every file is within the cap and of an accepted type. */
  predicate AllFilesAcceptable(files: seq<FileInfo>, accept: Option<string>, maxBytes: nat) {
    forall k :: 0 <= k < |files| ==> files[k].size <= maxBytes && TypeAccepted(accept, files[k].mime)
  }

  /** What the validator needs to see of the session besides the field itself. */
  datatype FieldContext = FieldContext(
    formData: map<string, string>,
    toggled: map<string, bool>,
    uploads: seq<Upload>,
    phoneDisplay: string,
    country: string,
    libs: Libraries)

  /** `new URL(text).hostname.includes('.')`, false when the constructor throws. */
  predicate UrlHasDottedHost(libs: Libraries, text: string) {
    var host := libs.urlHostname(text);
    host.Some? && '.' in host.value
  }

  /** `parsePhoneNumber(text, country)?.isValid() ?? false` */
  predicate PhoneIsValid(libs: Libraries, text: string, country: string) {
    var parsed := libs.parsePhone(text, country);
    parsed.Some? && parsed.value.valid
  }

  /** The phone text shown after the input loses focus: the international format
      of the parsed number, or the typed text when it cannot be parsed or the
      format is empty. A non-empty text never becomes empty. */
  function FormattedDisplay(libs: Libraries, display: string, country: string): (r: string)
    ensures display != "" ==> r != ""
    ensures libs.parsePhone(display, country).None? ==> r == display
  {
    var parsed := libs.parsePhone(display, country);
    if parsed.None? then display
    else
      var formatted := libs.formatPhoneIntl(parsed.value.number);
      if formatted != "" then formatted else display
  }

  /** The phone answer stored after the input loses focus: the parsed number in
      E.164 form, or the typed text when it cannot be parsed. */
  function StoredPhone(libs: Libraries, display: string, country: string): string {
    var parsed := libs.parsePhone(display, country);
    if parsed.Some? then parsed.value.number else display
  }

  /** The callback of `currentStage.fields.every(...)` in `isStageValid`. */
  predicate FieldValid(field: FormField, ctx: FieldContext) {
    var value := ValueOf(ctx.formData, field.name);
    if IsToggledOff(ctx.toggled, field.name) then true
    else if !field.required && IsBlank(value) then true
    else match field.kind
      case EmailField => MatchesEmailPattern(value)
      case UrlField =>
        !IsBlank(value) && (UrlHasDottedHost(ctx.libs, value) || UrlHasDottedHost(ctx.libs, "https://" + value))
      case PhoneField =>
        !IsBlank(value) && PhoneIsValid(ctx.libs, if ctx.phoneDisplay != "" then ctx.phoneDisplay else value, ctx.country)
      case TextareaField =>
        if field.minLength.Some? && field.minLength.value != 0 then |value| >= field.minLength.value
        else !IsBlank(value)
      case FileField =>
        var files := FilesOf(ctx.uploads, field.name);
        if !field.required && |files| == 0 then true
        else if field.required && |files| == 0 then false
        else AllFilesAcceptable(files, field.accept, MaxBytes(field.maxSizeMB))
      case _ => !IsBlank(value)
  }

  /** `isStageValid()`: false while an e-mail check runs, true for a missing stage
      or one without fields, otherwise every field is valid. */
  predicate StageValid(stage: Option<FormStage>, isCheckingEmail: bool, ctx: FieldContext) {
    if isCheckingEmail then false
    else if stage.None? || |stage.value.fields| == 0 then true
    else forall k :: 0 <= k < |stage.value.fields| ==> FieldValid(stage.value.fields[k], ctx)
  }

  /** `config.stages[index]`, `undefined` past the end. */
  function StageAt(stages: seq<FormStage>, index: nat): Option<FormStage> {
    if index < |stages| then Some(stages[index]) else None
  }

  /** All fields of all stages, in order (`stages.flatMap(s => s.fields || [])`). */
  function AllFields(stages: seq<FormStage>): seq<FormField> {
    if stages == [] then [] else stages[0].fields + AllFields(stages[1..])
  }

  /** The names of all fields of the form. */
  function FieldNames(stages: seq<FormStage>): set<string> {
    set f | f in AllFields(stages) :: f.name
  }

  /** The first field named `name` in a list, if any. */
  function FindField(fields: seq<FormField>, name: string): (r: Option<FormField>)
    ensures r.Some? ==> r.value.name == name && r.value in fields
    ensures r.None? <==> forall k :: 0 <= k < |fields| ==> fields[k].name != name
  {
    if fields == [] then None
    else if fields[0].name == name then Some(fields[0])
    else FindField(fields[1..], name)
  }

  /** `getFieldByName(name)`: the first field with that name, stage by stage. */
  function GetFieldByName(stages: seq<FormStage>, name: string): (r: Option<FormField>)
    ensures r == FindField(AllFields(stages), name)
  {
    if stages == [] then None
    else
      var found := FindField(stages[0].fields, name);
      if found.Some? then
        FindFirstOfPrefix(stages[0].fields, AllFields(stages[1..]), name);
        found
      else
        FindSkipsPrefix(stages[0].fields, AllFields(stages[1..]), name);
        GetFieldByName(stages[1..], name)
  }

  lemma {:induction false} FindFirstOfPrefix(a: seq<FormField>, b: seq<FormField>, name: string)
    requires FindField(a, name).Some?
    ensures FindField(a + b, name) == FindField(a, name)
  {
    if a[0].name != name {
      assert (a + b)[1..] == a[1..] + b;
      FindFirstOfPrefix(a[1..], b, name);
    }
  }

  lemma {:induction false} FindSkipsPrefix(a: seq<FormField>, b: seq<FormField>, name: string)
    requires FindField(a, name).None?
    ensures FindField(a + b, name) == FindField(b, name)
  {
    if a != [] {
      assert (a + b)[0] == a[0] && (a + b)[1..] == a[1..] + b;
      FindSkipsPrefix(a[1..], b, name);
    } else {
      assert a + b == b;
    }
  }

  /** `getFieldByName` finds a field exactly when the form has a field of that
      name, and what it finds carries that name and belongs to the form. */
  lemma GetFieldByNameFinds(stages: seq<FormStage>, name: string)
    ensures GetFieldByName(stages, name).Some? <==> name in FieldNames(stages)
    ensures GetFieldByName(stages, name).Some? ==>
      GetFieldByName(stages, name).value.name == name &&
      GetFieldByName(stages, name).value in AllFields(stages)
  {
    var all := AllFields(stages);
    if name in FieldNames(stages) {
      var f :| f in all && f.name == name;
      var k :| 0 <= k < |all| && all[k] == f;
    }
  }

  // ---------------------------------------------------------------------------
  // Properties of the validator

  /** A field the user toggled off passes, whatever its kind and value. */
  lemma ToggledOffFieldValid(field: FormField, ctx: FieldContext)
    requires IsToggledOff(ctx.toggled, field.name)
    ensures FieldValid(field, ctx)
  {
  }

  /** An optional field with a blank value passes, whatever its kind; so an
      optional file field passes whatever files were picked for it. */
  lemma OptionalBlankFieldValid(field: FormField, ctx: FieldContext)
    requires !field.required && IsBlank(ValueOf(ctx.formData, field.name))
    ensures FieldValid(field, ctx)
    ensures forall uploads :: FieldValid(field, ctx.(uploads := uploads))
  {
  }

  /** An e-mail field that is not toggled off passes exactly when it is optional
      and blank or its untrimmed value matches the e-mail pattern. */
  lemma EmailFieldValidIff(field: FormField, ctx: FieldContext)
    requires field.kind == EmailField && !IsToggledOff(ctx.toggled, field.name)
    ensures var value := ValueOf(ctx.formData, field.name);
      FieldValid(field, ctx) <==> (!field.required && IsBlank(value)) || MatchesEmailPattern(value)
  {
  }

  /** A url field that is not toggled off passes exactly when it is optional
      and blank, or its value is not blank and the URL parser finds a dotted
      host in it as typed or with "https://" in front. */
  lemma UrlFieldValidIff(field: FormField, ctx: FieldContext)
    requires field.kind == UrlField && !IsToggledOff(ctx.toggled, field.name)
    ensures var value := ValueOf(ctx.formData, field.name);
      FieldValid(field, ctx) <==>
        ((!field.required && IsBlank(value))
         || (!IsBlank(value)
             && (UrlHasDottedHost(ctx.libs, value) || UrlHasDottedHost(ctx.libs, "https://" + value))))
  {
  }

  /** A phone field that is not toggled off passes exactly when it is optional
      and blank, or its answer is not blank and the shown text (the answer
      when nothing is shown) parses as a valid number for the chosen country. */
  lemma PhoneFieldValidIff(field: FormField, ctx: FieldContext)
    requires field.kind == PhoneField && !IsToggledOff(ctx.toggled, field.name)
    ensures var value := ValueOf(ctx.formData, field.name);
      var checked := if ctx.phoneDisplay != "" then ctx.phoneDisplay else value;
      FieldValid(field, ctx) <==>
        ((!field.required && IsBlank(value)) || (!IsBlank(value) && PhoneIsValid(ctx.libs, checked, ctx.country)))
  {
  }

  /** Text, radio and select fields, and a textarea without a minimum length,
      pass exactly when they are toggled off, optional, or their trimmed value is
      not empty. */
  lemma PlainFieldValidIff(field: FormField, ctx: FieldContext)
    requires field.kind in {TextField, RadioField, SelectField}
      || (field.kind == TextareaField && (field.minLength.None? || field.minLength.value == 0))
    ensures FieldValid(field, ctx) <==>
      IsToggledOff(ctx.toggled, field.name) || !field.required || !IsBlank(ValueOf(ctx.formData, field.name))
  {
  }

  /** A textarea with a minimum length that is required passes exactly when its
      untrimmed length reaches the minimum (white space counts). */
  lemma MinLengthTextareaValidIff(field: FormField, ctx: FieldContext)
    requires field.kind == TextareaField && field.minLength.Some? && field.minLength.value != 0
    requires field.required && !IsToggledOff(ctx.toggled, field.name)
    ensures FieldValid(field, ctx) <==> |ValueOf(ctx.formData, field.name)| >= field.minLength.value
  {
  }

  /** A required file field fails with no files and otherwise passes exactly when
      every attached file is within `(maxSizeMB ?? 10)` MB and of an accepted type. */
  lemma RequiredFileFieldValidIff(field: FormField, ctx: FieldContext)
    requires field.kind == FileField && field.required && !IsToggledOff(ctx.toggled, field.name)
    ensures var files := FilesOf(ctx.uploads, field.name);
      FieldValid(field, ctx) <==>
        |files| > 0 && forall k :: 0 <= k < |files| ==>
          files[k].size <= (field.maxSizeMB.GetOr(10)) * 1024 * 1024 && TypeAccepted(field.accept, files[k].mime)
  {
    var files := FilesOf(ctx.uploads, field.name);
    assert MaxBytes(field.maxSizeMB) == field.maxSizeMB.GetOr(10) * 1024 * 1024;
    assert FieldValid(field, ctx) <==> |files| > 0 && AllFilesAcceptable(files, field.accept, MaxBytes(field.maxSizeMB));
  }

  /** A stage is valid exactly when no e-mail check is running and each of its
      fields is valid; a stage with no fields is valid. */
  lemma StageValidIff(stage: FormStage, isCheckingEmail: bool, ctx: FieldContext)
    ensures StageValid(Some(stage), isCheckingEmail, ctx) <==>
      !isCheckingEmail && forall f :: f in stage.fields ==> FieldValid(f, ctx)
  {
    if !isCheckingEmail && |stage.fields| > 0 && StageValid(Some(stage), isCheckingEmail, ctx) {
      forall f | f in stage.fields ensures FieldValid(f, ctx) {
        var k :| 0 <= k < |stage.fields| && stage.fields[k] == f;
      }
    }
  }
}
