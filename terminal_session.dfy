/** One run of TerminalFormChat: the component's state as the fields of a class,
    and its event handlers as methods. The e-mail lookup, the Turnstile widget,
    the webhook's reply, the clock and the file reader are inputs of the
    handlers that use them. */
module TerminalSession {
  import opened Wrappers
  import opened Text
  import opened TerminalFields
  import opened TerminalPayload
  import opened TerminalPicker

  // ---------------------------------------------------------------------------
  // Moving through the stages

  /** What the e-mail lookup webhook answered: a known contact (with the name it
      gave, if any), an unknown one, or a failure (network error, unreadable
      body). */
  datatype EmailCheck = Exists(name: Option<string>) | NotExists | CheckFailed

  /** `fields.find(f => f.type === 'email')` */
  function FirstEmailField(fields: seq<FormField>): (r: Option<FormField>)
    ensures r.Some? ==> r.value.kind == EmailField && r.value in fields
    ensures r.None? <==> forall k :: 0 <= k < |fields| ==> fields[k].kind != EmailField
  {
    if fields == [] then None
    else if fields[0].kind == EmailField then Some(fields[0])
    else FirstEmailField(fields[1..])
  }

  /** The duplicate guard of `advanceStage`: when the current stage has an e-mail
      field and an e-mail check webhook is configured, the trimmed answer of the
      first e-mail field (possibly empty); `None` when the guard does not apply. */
  function EmailGuard(config: FormConfig, index: nat, formData: map<string, string>): (r: Option<string>)
    ensures r.Some? <==>
      index < |config.stages| && FirstEmailField(config.stages[index].fields).Some?
      && config.emailCheckWebhookUrl.Some? && config.emailCheckWebhookUrl.value != ""
  {
    var stage := StageAt(config.stages, index);
    if stage.None? then None
    else
      var emailField := FirstEmailField(stage.value.fields);
      if emailField.None? || config.emailCheckWebhookUrl.None? || config.emailCheckWebhookUrl.value == "" then None
      else Some(Trim(ValueOf(formData, emailField.value.name)))
  }

  /** The message shown when the e-mail is already on file. */
  function DuplicateMessage(name: Option<string>): string {
    "We already have " + OrElse(name, "this contact")
    + " on file. Reach us directly at hello@tenxafrica.co.za to continue."
  }

  /** The part of the state `advanceStage` changes: the current stage index, the
      indices of the completed stages and the e-mail check message. */
  datatype Progress = Progress(index: nat, history: seq<nat>, message: string)

  /** The effect of `advanceStage`, given the answers its closure saw and the
      lookup's answer: a known e-mail stops on the current stage with the
      duplicate message; otherwise the current index joins the history and the
      next stage becomes current, with the message cleared when the guard
      applied. The lookup is only made for a non-empty e-mail. */
  function AdvanceResult(config: FormConfig, p: Progress, formData: map<string, string>, check: EmailCheck): Progress {
    var guard := EmailGuard(config, p.index, formData);
    if guard.Some? && guard.value != "" && check.Exists? then
      Progress(p.index, p.history, DuplicateMessage(check.name))
    else
      Progress(p.index + 1, p.history + [p.index], if guard.Some? then "" else p.message)
  }

  /** `[0, 1, ..., n - 1]` */
  function Range(n: nat): (r: seq<nat>)
    ensures |r| == n && forall k :: 0 <= k < n ==> r[k] == k
  {
    seq(n, k requires 0 <= k < n => k)
  }

  /** The history lists the stages before the current one, in order: advancing
      keeps that so, whether it moves on or stops at a known e-mail. */
  lemma AdvanceKeepsHistory(config: FormConfig, p: Progress, formData: map<string, string>, check: EmailCheck)
    requires p.history == Range(p.index)
    ensures var r := AdvanceResult(config, p, formData, check); r.history == Range(r.index)
  {
    var r := AdvanceResult(config, p, formData, check);
    if r.index != p.index {
      assert r.history == Range(p.index) + [p.index];
      assert Range(p.index) + [p.index] == Range(p.index + 1);
    }
  }

  /** The stage stays current exactly when the guard applies, the answer is a
      non-empty e-mail and the lookup knows it; in every other case (a failed
      lookup included) the flow moves on by one stage. */
  lemma AdvanceStopsIff(config: FormConfig, p: Progress, formData: map<string, string>, check: EmailCheck)
    ensures var r := AdvanceResult(config, p, formData, check);
      var guard := EmailGuard(config, p.index, formData);
      (r.index == p.index <==> guard.Some? && guard.value != "" && check.Exists?)
      && (r.index != p.index ==> r.index == p.index + 1 && r.history == p.history + [p.index])
      && (r.index == p.index ==> r.history == p.history && r.message == DuplicateMessage(check.name))
  {
  }

  /** The lookup's answer only matters when there is an e-mail to look up. */
  lemma LookupOnlyForEmail(config: FormConfig, p: Progress, formData: map<string, string>, a: EmailCheck, b: EmailCheck)
    requires var guard := EmailGuard(config, p.index, formData); guard.None? || guard.value == ""
    ensures AdvanceResult(config, p, formData, a) == AdvanceResult(config, p, formData, b)
  {
  }

  /** `toggledFields[name]` flipped: only that field's opt-out changes. */
  function Toggle(toggled: map<string, bool>, name: string): (r: map<string, bool>)
    ensures forall m :: IsToggledOff(r, m) <==> (if m == name then !IsToggledOff(toggled, m) else IsToggledOff(toggled, m))
  {
    toggled[name := !IsToggledOff(toggled, name)]
  }

  /** Toggling a field twice restores every opt-out. */
  lemma ToggleTwice(toggled: map<string, bool>, name: string, m: string)
    ensures IsToggledOff(Toggle(Toggle(toggled, name), name), m) == IsToggledOff(toggled, m)
  {
  }

  /** `config.stages.findIndex(s => s.id === 'security')` */
  function SecurityIndex(stages: seq<FormStage>): (r: Option<nat>)
    ensures r.Some? ==> r.value < |stages| && stages[r.value].id == "security"
    ensures r.Some? ==> forall k :: 0 <= k < r.value ==> stages[k].id != "security"
    ensures r.None? <==> forall k :: 0 <= k < |stages| ==> stages[k].id != "security"
  {
    if stages == [] then None
    else if stages[0].id == "security" then Some(0)
    else
      var rest := SecurityIndex(stages[1..]);
      if rest.Some? then Some(rest.value + 1) else None
  }

  /** Some field of the list is a radio group. */
  predicate HasRadioField(fields: seq<FormField>) {
    exists k :: 0 <= k < |fields| && fields[k].kind == RadioField
  }

  /** `renderField` draws the field: a text, e-mail, url, select or file input
      is left out while toggled off; a phone, textarea or radio input never is. */
  predicate Drawn(field: FormField, toggled: map<string, bool>) {
    field.kind in {PhoneField, TextareaField, RadioField} || !IsToggledOff(toggled, field.name)
  }

  /** Some drawn field of the list is of one of `kinds` and, when a name is
      given, has that name. */
  predicate DrawsInput(fields: seq<FormField>, toggled: map<string, bool>, name: Option<string>, kinds: set<FieldType>) {
    exists k :: 0 <= k < |fields| && fields[k].kind in kinds && (name.None? || fields[k].name == name.value)
      && Drawn(fields[k], toggled)
  }

  /** The field lists an option with that value. */
  predicate HasOption(field: FormField, value: string) {
    exists j :: 0 <= j < |field.options| && field.options[j].value == value
  }

  /** Some radio group of the list named `name` has an option with that value. */
  predicate OffersOption(fields: seq<FormField>, name: string, value: string) {
    exists k :: 0 <= k < |fields| && fields[k].kind == RadioField && fields[k].name == name
      && HasOption(fields[k], value)
  }

  /** Some drawn input of the list named `name` can produce `value`: a text,
      e-mail, url or textarea input any text, a select only one of its options'
      values (its placeholder option is disabled). */
  predicate TypingInput(fields: seq<FormField>, toggled: map<string, bool>, name: string, value: string) {
    exists k :: 0 <= k < |fields| && fields[k].name == name && fields[k].kind in TypingKinds
      && Drawn(fields[k], toggled) && (fields[k].kind == SelectField ==> HasOption(fields[k], value))
  }

  /** Some field of the list named `name` has a toggle label, so its toggle
      button is drawn under it. */
  predicate HasToggle(fields: seq<FormField>, name: string) {
    exists k :: 0 <= k < |fields| && fields[k].name == name && fields[k].toggleLabel.Some?
  }

  /** The inputs whose `onKeyDown` is `handleKeyDown`. */
  const EnterKinds: set<FieldType> := {TextField, EmailField, UrlField, SelectField}
  /** The inputs whose `onChange` stores the typed value under the field's name. */
  const TypingKinds: set<FieldType> := {TextField, EmailField, UrlField, TextareaField, SelectField}

  // ---------------------------------------------------------------------------
  // The file picker of a field

  /** `getFieldByName(name)?.accept` */
  function FieldAccept(stages: seq<FormStage>, name: string): Option<string> {
    var fdef := GetFieldByName(stages, name);
    if fdef.Some? then fdef.value.accept else None
  }

  /** `getFieldByName(name)?.maxSizeMB ?? 10` */
  function FieldMaxSizeMB(stages: seq<FormStage>, name: string): (r: nat)
    ensures r * BytesPerMB == FieldCapBytes(stages, name)
  {
    var fdef := GetFieldByName(stages, name);
    (if fdef.Some? then fdef.value.maxSizeMB else None).GetOr(DefaultMaxSizeMB)
  }

  /** `{ ...prev, [name]: error }`, where an `undefined` error is no entry. */
  function RecordError(errors: map<string, string>, name: string, error: Option<string>): (r: map<string, string>)
    ensures name in r <==> error.Some?
    ensures name in r ==> r[name] == error.value
    ensures forall m :: m != name ==> (m in r <==> m in errors) && (m in r ==> r[m] == errors[m])
  {
    if error.Some? then errors[name := error.value] else errors - {name}
  }

  /** The loop of the file input's `onChange`: the picks that pass the masks
      and the cap, in order, and how many were refused for their type and for
      their size. */
  method FilterPicks(files: seq<FileInfo>, accept: Option<string>, maxBytes: nat)
    returns (valid: seq<FileInfo>, invalidType: nat, tooBig: nat)
    ensures valid == Kept(files, accept, maxBytes)
    ensures invalidType == CountWrongType(files, accept) && tooBig == CountTooBig(files, maxBytes)
  {
    valid, invalidType, tooBig := [], 0, 0;
    var i := 0;
    while i < |files|
      invariant 0 <= i <= |files|
      invariant valid == Kept(files[..i], accept, maxBytes)
      invariant invalidType == CountWrongType(files[..i], accept)
      invariant tooBig == CountTooBig(files[..i], maxBytes)
    {
      var f := files[i];
      var okType := PickerAccepts(accept, f);
      var okSize := f.size <= maxBytes;
      if !okType { invalidType := invalidType + 1; }
      if !okSize { tooBig := tooBig + 1; }
      if okType && okSize { valid := valid + [f]; }
      assert files[..i + 1][..i] == files[..i];
      i := i + 1;
    }
    assert files[..i] == files;
  }

  /** The body `handleSubmit` posts: the attachments are encoded field by field
      and put into the payload with the answers and the tracking data. */
  method BuildPayload(config: FormConfig, formData: map<string, string>, toggled: map<string, bool>,
                      uploads: seq<Upload>, tracking: map<string, string>, libs: Libraries,
                      encode: FileInfo -> Option<string>, now: string)
    returns (payload: Payload)
    ensures payload == PayloadOf(config, formData, toggled, AttachmentsOf(config.stages, uploads, encode),
                                 tracking, libs, now)
  {
    var attachments := CollectAttachments(config.stages, uploads, encode);
    payload := PayloadOf(config, formData, toggled, attachments, tracking, libs, now);
  }

  // ---------------------------------------------------------------------------
  // The component

  class Session {
    const config: FormConfig

    var currentStageIndex: nat
    var history: seq<nat>
    var formData: map<string, string>
    var trackingData: map<string, string>
    var emailCheckMessage: string
    var isCheckingEmail: bool
    var isSubmitting: bool
    var submitStatus: SubmitStatus
    var errorMessage: string
    var country: string
    var phoneDisplay: string
    var toggledFields: map<string, bool>
    /** `uploadedFiles`, its keys in insertion order. */
    var uploads: seq<Upload>
    /** `fileErrors`; a field without an entry has no error. */
    var fileErrors: map<string, string>

    /** Between two events: the history is the stages before the current one,
        no lookup or submission is under way, and each field has at most one
        upload entry. */
    ghost predicate Valid()
      reads this
    {
      history == Range(currentStageIndex) && !isCheckingEmail && !isSubmitting && DistinctFields(uploads)
    }

    function CurrentProgress(): Progress
      reads this
    {
      Progress(currentStageIndex, history, emailCheckMessage)
    }

    /** What the validator reads of the session. */
    function Context(libs: Libraries): FieldContext
      reads this
    {
      FieldContext(formData, toggledFields, uploads, phoneDisplay, country, libs)
    }

    /** `isStageValid()` on the current stage. */
    predicate StageIsValid(libs: Libraries)
      reads this
    {
      StageValid(StageAt(config.stages, currentStageIndex), isCheckingEmail, Context(libs))
    }

    /** The "ENTER" button of the current stage is on screen: a stage other than
        the security stage, without a radio group, that asks for the button and
        is valid. */
    predicate AdvanceButtonShown(libs: Libraries)
      reads this
    {
      currentStageIndex < |config.stages|
      && config.stages[currentStageIndex].id != "security"
      && !HasRadioField(config.stages[currentStageIndex].fields)
      && config.stages[currentStageIndex].advanceButton
      && StageIsValid(libs)
    }

    /** The "INITIATE TRANSMISSION" button is on screen: Turnstile is required,
        the security stage is the current one, the widget has given a token, and
        the success screen has not replaced the form. */
    predicate SubmitButtonShown()
      reads this
    {
      config.requireTurnstile
      && SecurityIndex(config.stages) == Some(currentStageIndex)
      && "turnstileToken" in formData && formData["turnstileToken"] != ""
      && submitStatus != Success
    }

    /** The current stage is drawn with live inputs: the flow is not complete,
        the stage is not the security stage (drawn on its own) and the success
        screen is not shown in place of the form. Earlier stages are drawn
        disabled. */
    predicate StageOnScreen()
      reads this
    {
      currentStageIndex < |config.stages|
      && config.stages[currentStageIndex].id != "security"
      && submitStatus != Success
    }

    /** The current stage draws a live input of one of `kinds` (with that name,
        when one is given). */
    predicate Shows(name: Option<string>, kinds: set<FieldType>)
      reads this
    {
      StageOnScreen() && DrawsInput(config.stages[currentStageIndex].fields, toggledFields, name, kinds)
    }

    constructor (config: FormConfig)
      ensures this.config == config && Valid()
      ensures currentStageIndex == 0 && history == [] && emailCheckMessage == ""
      ensures formData == map[] && trackingData == map[]
      ensures submitStatus == Idle && errorMessage == ""
      ensures country == "ZA" && phoneDisplay == ""
      ensures toggledFields == map[] && uploads == [] && fileErrors == map[]
    {
      this.config := config;
      currentStageIndex := 0;
      history := [];
      formData := map[];
      trackingData := map[];
      emailCheckMessage := "";
      isCheckingEmail := false;
      isSubmitting := false;
      submitStatus := Idle;
      errorMessage := "";
      country := "ZA";
      phoneDisplay := "";
      toggledFields := map[];
      uploads := [];
      fileErrors := map[];
    }

    /** The mount effect: the tracking keys with a non-empty query value become
        the tracking data, and the form's own field names with a non-empty query
        value are prefilled over the current answers. */
    method CaptureTracking(query: map<string, string>)
      modifies this`trackingData, this`formData
      ensures trackingData == Collected(TrackingKeys(config.trackingParams), query)
      ensures formData == old(formData) + Collected(FieldNamesInOrder(config.stages), query)
    {
      var collected := CollectParams(TrackingKeys(config.trackingParams), query);
      var prefilled := CollectParams(FieldNamesInOrder(config.stages), query);
      trackingData := collected;
      if |prefilled| > 0 {
        formData := formData + prefilled;
      } else {
        assert prefilled == map[];
        assert formData + prefilled == formData;
      }
    }

    /** The `onChange` of a text, e-mail, url, textarea or select input of the
        current stage; a select gives only one of its options' values. */
    method SetFieldValue(name: string, value: string)
      requires StageOnScreen() && TypingInput(config.stages[currentStageIndex].fields, toggledFields, name, value)
      modifies this`formData
      ensures formData == old(formData)[name := value]
    {
      formData := formData[name := value];
    }

    /** The `onChange` of the phone input: the typed text is shown and stored. */
    method TypePhone(text: string)
      requires Shows(None, {PhoneField})
      modifies this`phoneDisplay, this`formData
      ensures phoneDisplay == text && formData == old(formData)["phone" := text]
    {
      phoneDisplay := text;
      formData := formData["phone" := text];
    }

    /** A choice in the country list. */
    method SelectCountry(code: string)
      requires Shows(None, {PhoneField})
      modifies this`country
      ensures country == code
    {
      country := code;
    }

    /** `handlePhoneBlur`: nothing for an empty input; otherwise the display is
        formatted and the parsed number (or the text) stored as "phone". */
    method BlurPhone(libs: Libraries)
      requires Shows(None, {PhoneField})
      modifies this`phoneDisplay, this`formData
      ensures old(phoneDisplay) == "" ==> phoneDisplay == old(phoneDisplay) && formData == old(formData)
      ensures old(phoneDisplay) != "" ==>
        phoneDisplay == FormattedDisplay(libs, old(phoneDisplay), country) && phoneDisplay != ""
        && formData == old(formData)["phone" := StoredPhone(libs, old(phoneDisplay), country)]
    {
      if phoneDisplay == "" {
        return;
      }
      var typed := phoneDisplay;
      phoneDisplay := FormattedDisplay(libs, typed, country);
      formData := formData["phone" := StoredPhone(libs, typed, country)];
    }

    /** The toggle button under a field with a toggle label. */
    method ToggleField(name: string)
      requires StageOnScreen() && HasToggle(config.stages[currentStageIndex].fields, name)
      modifies this`toggledFields
      ensures toggledFields == Toggle(old(toggledFields), name)
    {
      toggledFields := toggledFields[name := !IsToggledOff(toggledFields, name)];
    }

    /** The `onChange` of a file input: the picked files are filtered by the
        field's masks (the PDF default when it has none) and its size cap, the
        kept ones replace the field's files, and the field's error becomes the
        message for what was dropped. */
    method PickFiles(name: string, files: seq<FileInfo>)
      requires Valid() && Shows(Some(name), {FileField})
      modifies this`uploads, this`fileErrors
      ensures Valid()
      ensures var accept := FieldAccept(config.stages, name);
        var cap := FieldCapBytes(config.stages, name);
        var kept := Kept(files, accept, cap);
        uploads == SetUpload(old(uploads), name, kept)
        && FilesOf(uploads, name) == kept
        && (forall other :: other != name ==> FilesOf(uploads, other) == FilesOf(old(uploads), other))
        && fileErrors == RecordError(old(fileErrors), name,
             PickError(|files|, |kept|, CountWrongType(files, accept), CountTooBig(files, cap),
                       FieldMaxSizeMB(config.stages, name)))
    {
      var accept := FieldAccept(config.stages, name);
      var maxSizeMB := FieldMaxSizeMB(config.stages, name);
      var maxBytes := maxSizeMB * BytesPerMB;
      var valid, invalidType, tooBig := FilterPicks(files, accept, maxBytes);
      SetUploadDistinct(uploads, name, valid);
      forall other | true
        ensures FilesOf(SetUpload(uploads, name, valid), name) == valid
        ensures other != name ==> FilesOf(SetUpload(uploads, name, valid), other) == FilesOf(uploads, other)
      {
        SetUploadFiles(uploads, name, valid, other);
      }
      uploads := SetUpload(uploads, name, valid);
      fileErrors := RecordError(fileErrors, name, PickError(|files|, |valid|, invalidType, tooBig, maxSizeMB));
    }

    /** `advanceStage` as run by a closure that saw the answers `seen`. */
    method Advance(seen: map<string, string>, check: EmailCheck)
      requires Valid()
      modifies this`currentStageIndex, this`history, this`emailCheckMessage
      ensures Valid()
      ensures CurrentProgress() == AdvanceResult(config, old(CurrentProgress()), seen, check)
    {
      var next := AdvanceResult(config, CurrentProgress(), seen, check);
      AdvanceKeepsHistory(config, CurrentProgress(), seen, check);
      currentStageIndex, history, emailCheckMessage := next.index, next.history, next.message;
    }

    /** `advanceStage` on the current answers. */
    method AdvanceStage(check: EmailCheck)
      requires Valid()
      modifies this`currentStageIndex, this`history, this`emailCheckMessage
      ensures Valid()
      ensures CurrentProgress() == AdvanceResult(config, old(CurrentProgress()), formData, check)
    {
      Advance(formData, check);
    }

    /** Enter in a text, e-mail, url or select input: advances only when the
        current stage is valid. */
    method PressEnter(libs: Libraries, check: EmailCheck)
      requires Valid() && Shows(None, EnterKinds)
      modifies this`currentStageIndex, this`history, this`emailCheckMessage
      ensures Valid()
      ensures old(StageIsValid(libs)) ==>
        CurrentProgress() == AdvanceResult(config, old(CurrentProgress()), formData, check)
      ensures !old(StageIsValid(libs)) ==> CurrentProgress() == old(CurrentProgress())
    {
      if StageIsValid(libs) {
        AdvanceStage(check);
      }
    }

    /** Enter in the phone input: for a non-blank text the number is formatted as
        on blur and the flow advances, without the stage validation, with the
        answers as they were before the formatting. */
    method PressPhoneEnter(libs: Libraries, check: EmailCheck)
      requires Valid() && Shows(None, {PhoneField})
      modifies this`currentStageIndex, this`history, this`emailCheckMessage, this`phoneDisplay, this`formData
      ensures Valid()
      ensures IsBlank(old(phoneDisplay)) ==>
        CurrentProgress() == old(CurrentProgress()) && phoneDisplay == old(phoneDisplay) && formData == old(formData)
      ensures !IsBlank(old(phoneDisplay)) ==>
        phoneDisplay == FormattedDisplay(libs, old(phoneDisplay), country)
        && formData == old(formData)["phone" := StoredPhone(libs, old(phoneDisplay), country)]
        && CurrentProgress() == AdvanceResult(config, old(CurrentProgress()), old(formData), check)
    {
      if IsBlank(phoneDisplay) {
        return;
      }
      var seen := formData;
      var typed := phoneDisplay;
      phoneDisplay := FormattedDisplay(libs, typed, country);
      formData := formData["phone" := StoredPhone(libs, typed, country)];
      Advance(seen, check);
    }

    /** A radio option: the choice is stored and the flow advances, without the
        stage validation, with the answers as they were before the click. */
    method ClickRadio(name: string, value: string, check: EmailCheck)
      requires Valid() && StageOnScreen() && OffersOption(config.stages[currentStageIndex].fields, name, value)
      modifies this`currentStageIndex, this`history, this`emailCheckMessage, this`formData
      ensures Valid()
      ensures formData == old(formData)[name := value]
      ensures CurrentProgress() == AdvanceResult(config, old(CurrentProgress()), old(formData), check)
    {
      var seen := formData;
      formData := formData[name := value];
      Advance(seen, check);
    }

    /** The "ENTER" button: it advances only while it is shown. */
    method ClickAdvanceButton(libs: Libraries, check: EmailCheck)
      requires Valid()
      modifies this`currentStageIndex, this`history, this`emailCheckMessage
      ensures Valid()
      ensures old(AdvanceButtonShown(libs)) ==>
        CurrentProgress() == AdvanceResult(config, old(CurrentProgress()), formData, check)
      ensures !old(AdvanceButtonShown(libs)) ==> CurrentProgress() == old(CurrentProgress())
    {
      if AdvanceButtonShown(libs) {
        AdvanceStage(check);
      }
    }

    /** The Turnstile widget's `onVerify`: the token is stored with the answers. */
    method VerifyTurnstile(token: string)
      requires config.requireTurnstile && SecurityIndex(config.stages) == Some(currentStageIndex)
      requires submitStatus != Success
      modifies this`formData
      ensures formData == old(formData)["turnstileToken" := token]
    {
      formData := formData["turnstileToken" := token];
    }

    /** `handleSubmit`: with no webhook URL it fails with "WEBHOOK_NOT_CONFIGURED"
        and sends nothing; otherwise it sends the payload of the current answers,
        attachments and tracking data, and the reply decides the status and the
        error text. No submission is under way afterwards. */
    method Submit(libs: Libraries, encode: FileInfo -> Option<string>, now: string, reply: Reply)
      returns (sent: Option<Payload>)
      requires Valid()
      modifies this`isSubmitting, this`errorMessage, this`submitStatus
      ensures Valid()
      ensures IsBlank(config.webhookUrl) ==>
        sent.None? && submitStatus == Failure && errorMessage == "WEBHOOK_NOT_CONFIGURED"
      ensures !IsBlank(config.webhookUrl) ==>
        sent == Some(PayloadOf(config, formData, toggledFields, AttachmentsOf(config.stages, uploads, encode),
                               trackingData, libs, now))
        && Outcome(submitStatus, errorMessage) == OutcomeOf(config.errorMessages, reply)
    {
      if IsBlank(config.webhookUrl) {
        submitStatus := Failure;
        errorMessage := "WEBHOOK_NOT_CONFIGURED";
        isSubmitting := false;
        return None;
      }
      var payload := BuildPayload(config, formData, toggledFields, uploads, trackingData, libs, encode, now);
      sent := Some(payload);
      isSubmitting := true;
      errorMessage := "";
      var outcome := OutcomeOf(config.errorMessages, reply);
      submitStatus := outcome.status;
      errorMessage := outcome.errorMessage;
      isSubmitting := false;
    }

    /** The "INITIATE TRANSMISSION" button: it submits only while it is shown. */
    method ClickSubmit(libs: Libraries, encode: FileInfo -> Option<string>, now: string, reply: Reply)
      returns (sent: Option<Payload>)
      requires Valid()
      modifies this`isSubmitting, this`errorMessage, this`submitStatus
      ensures Valid()
      ensures !old(SubmitButtonShown()) ==> sent.None? && submitStatus == old(submitStatus) && errorMessage == old(errorMessage)
      ensures old(submitStatus) == Success ==> sent.None? && submitStatus == Success && errorMessage == old(errorMessage)
      ensures old(SubmitButtonShown()) && IsBlank(config.webhookUrl) ==>
        sent.None? && submitStatus == Failure && errorMessage == "WEBHOOK_NOT_CONFIGURED"
      ensures old(SubmitButtonShown()) && !IsBlank(config.webhookUrl) ==>
        sent == Some(PayloadOf(config, formData, toggledFields, AttachmentsOf(config.stages, uploads, encode),
                               trackingData, libs, now))
        && sent.value.metadata.turnstileToken == Some(formData["turnstileToken"])
        && Outcome(submitStatus, errorMessage) == OutcomeOf(config.errorMessages, reply)
    {
      sent := None;
      if SubmitButtonShown() {
        sent := Submit(libs, encode, now, reply);
      }
    }
  }
}
