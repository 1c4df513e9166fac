/** What TerminalFormChat sends: the form configuration it is given, the
    normalisation of the `website` answer, the tracking parameters captured from
    the query string, the lead payload with its attachments, and the mapping of
    the webhook's reply to the outcome shown to the user. */
module TerminalPayload {
  import opened Wrappers
  import opened Text
  import opened TerminalFields

  /** The per-reason overrides of `config.errorMessages`. */
  datatype ErrorMessages = ErrorMessages(
    invalidCaptcha: Option<string>,
    processingError: Option<string>,
    generic: Option<string>)

  /** The part of the form configuration the logic reads. */
  datatype FormConfig = FormConfig(
    slug: string,
    webhookUrl: string,
    emailCheckWebhookUrl: Option<string>,
    trackingParams: Option<seq<string>>,
    errorMessages: ErrorMessages,
    requireTurnstile: bool,
    stages: seq<FormStage>)

  // ---------------------------------------------------------------------------
  // normalizeWebsite

  /** The regular expression `^https?:\/\/` with the `i` flag. */
  predicate HasHttpScheme(s: string) {
    StartsWith(ToLower(s), "http://") || StartsWith(ToLower(s), "https://")
  }

  /** `s.replace(/^www\./i, '')`: one leading "www.", in any case, removed. */
  function StripWww(s: string): (r: string)
    ensures r == s || (|s| >= 4 && ToLower(s[..4]) == "www." && r == s[4..])
    ensures |s| >= 4 && ToLower(s[..4]) == "www." ==> r == s[4..]
  {
    if |s| >= 4 && ToLower(s[..4]) == "www." then s[4..] else s
  }

  /** `s.replace(/^https?:\/\/?/i, '')`: a leading "http:/", "http://", "https:/"
      or "https://", in any case, removed (the longest that matches). */
  function StripSchemeLoose(s: string): (r: string)
    ensures |r| <= |s| && r == s[|s| - |r|..]
    ensures StartsWith(ToLower(s), "https://") ==> r == s[8..]
    ensures StartsWith(ToLower(s), "http://") ==> r == s[7..]
    ensures !StartsWith(ToLower(s), "http") ==> r == s
  {
    var l := ToLower(s);
    if StartsWith(l, "https://") then
      assert l[..8][4] == 's';
      StartsWithTransitive(l, "https://", "http");
      s[8..]
    else if StartsWith(l, "https:/") then
      StartsWithTransitive(l, "https:/", "http");
      s[7..]
    else if StartsWith(l, "http://") then
      StartsWithTransitive(l, "http://", "http");
      s[7..]
    else if StartsWith(l, "http:/") then
      StartsWithTransitive(l, "http:/", "http");
      s[6..]
    else s
  }

  lemma StartsWithTransitive(s: string, p: string, q: string)
    requires StartsWith(s, p) && StartsWith(p, q)
    ensures StartsWith(s, q)
  {
    assert s[..|q|] == p[..|q|];
  }

  /** `normalizeWebsite(value)`: blank gives the empty string; otherwise the value
      gets an https scheme unless it has an http(s) one, and the hostname the URL
      parser finds is returned without one leading "www."; when the parser throws,
      the scheme and one "www." are stripped from the trimmed value and the text
      is cut at the first '/'. */
  function NormalizeWebsite(libs: Libraries, value: string): (r: string)
    ensures IsBlank(value) ==> r == ""
    ensures !IsBlank(value) ==>
      var t := Trim(value);
      var prefixed := if HasHttpScheme(t) then t else "https://" + t;
      match libs.urlHostname(prefixed)
      case Some(host) => r == StripWww(host)
      case None =>
        var stripped := StripWww(StripSchemeLoose(t));
        StartsWith(stripped, r) && '/' !in r && (|r| == |stripped| || stripped[|r|] == '/')
  {
    var t := Trim(value);
    if t == [] then ""
    else
      var prefixed := if HasHttpScheme(t) then t else "https://" + t;
      match libs.urlHostname(prefixed)
      case Some(host) => StripWww(host)
      case None =>
        var parts := Split(StripWww(StripSchemeLoose(t)), '/');
        SplitFirstIsPrefix(StripWww(StripSchemeLoose(t)), '/');
        parts[0]
  }

  /** The first piece of a split is the text before the first separator. */
  lemma {:induction false} SplitFirstIsPrefix(s: string, sep: char)
    ensures StartsWith(s, Split(s, sep)[0])
    ensures |Split(s, sep)[0]| == |s| || s[|Split(s, sep)[0]|] == sep
  {
    if s != [] && s[0] != sep {
      SplitFirstIsPrefix(s[1..], sep);
    }
  }

  /** A full URL "https://www." + domain + path whose hostname the parser reads
      as "www." + domain normalises to the bare domain; so
      "https://www.example.com/path" becomes "example.com". */
  lemma NormalizeFullUrl(libs: Libraries, domain: string, path: string, v: string)
    requires v == "https://www." + domain + path && !IsSpace(v[|v| - 1])
    requires libs.urlHostname(v) == Some("www." + domain)
    ensures NormalizeWebsite(libs, v) == domain
  {
    assert v == "https://" + ("www." + domain + path);
    HttpsScheme("www." + domain + path);
    NormalizeParsed(libs, v, "www." + domain);
    StripWwwPrefix(domain);
  }

  /** A trimmed URL with an http(s) scheme is handed to the parser as it is, and
      its hostname, less one "www.", is the result. */
  lemma NormalizeParsed(libs: Libraries, v: string, host: string)
    requires v != [] && !IsSpace(v[0]) && !IsSpace(v[|v| - 1])
    requires HasHttpScheme(v) && libs.urlHostname(v) == Some(host)
    ensures NormalizeWebsite(libs, v) == StripWww(host)
  {
    TrimUnchanged(v);
  }

  lemma HttpsScheme(rest: string)
    ensures HasHttpScheme("https://" + rest)
  {
    var s := "https://" + rest;
    assert ToLower(s)[..8] == "https://" by {
      forall i | 0 <= i < 8 ensures ToLower(s)[i] == "https://"[i] {
        assert s[i] == "https://"[i];
      }
    }
  }

  lemma StripWwwPrefix(d: string)
    ensures StripWww("www." + d) == d
  {
    var s := "www." + d;
    assert ToLower(s[..4]) == "www." by {
      assert s[..4] == "www.";
    }
    assert s[4..] == d;
  }

  /** An illustration of `NormalizePrefixed` on one shape of input: a bare
      domain typed with surrounding blanks is trimmed and given the https scheme
      before it is parsed; a domain that starts with neither 'h' nor 'w' carries
      no scheme and no "www." to remove. */
  lemma NormalizeBareDomain(libs: Libraries, v: string, t: string)
    requires t != [] && !IsSpace(t[0]) && !IsSpace(t[|t| - 1])
    requires LowerChar(t[0]) != 'h' && LowerChar(t[0]) != 'w'
    requires v == "  " + t + " "
    requires libs.urlHostname("https://" + t) == Some(t)
    ensures NormalizeWebsite(libs, v) == t
  {
    TrimPadded(v, t);
    NoSchemeNoWww(t);
    NormalizePrefixed(libs, v, t, t);
  }

  /** A trimmed text without an http(s) scheme is parsed with "https://" in
      front, and its hostname, less one "www.", is the result. */
  lemma NormalizePrefixed(libs: Libraries, v: string, t: string, host: string)
    requires Trim(v) == t && t != [] && !HasHttpScheme(t)
    requires libs.urlHostname("https://" + t) == Some(host)
    ensures NormalizeWebsite(libs, v) == StripWww(host)
  {
  }

  /** A text that starts with neither 'h' nor 'w', in any case, has no http(s)
      scheme and no leading "www.". */
  lemma NoSchemeNoWww(t: string)
    requires t != [] && LowerChar(t[0]) != 'h' && LowerChar(t[0]) != 'w'
    ensures !HasHttpScheme(t) && StripWww(t) == t
  {
    assert ToLower(t)[0] == LowerChar(t[0]);
    if |t| >= 4 {
      assert ToLower(t[..4])[0] == LowerChar(t[0]);
    }
  }

  /** Two leading blanks and one trailing blank are trimmed away. */
  lemma TrimPadded(v: string, t: string)
    requires t != [] && !IsSpace(t[0]) && !IsSpace(t[|t| - 1])
    requires v == "  " + t + " "
    ensures Trim(v) == t
  {
    var w := t + " ";
    assert v[1..][1..] == w;
    assert TrimStart(w) == w;
    assert TrimStart(v[1..]) == w;
    assert TrimStart(v) == w;
    assert w[..|w| - 1] == t;
    assert TrimEnd(w) == t;
  }

  // ---------------------------------------------------------------------------
  // Tracking capture on mount

  /** The query-string keys captured as tracking data. */
  const DefaultTrackingKeys: seq<string> := ["token", "utm_source", "utm_medium", "utm_campaign"]

  /** `config.trackingParams` when it is a non-empty list, the defaults otherwise. */
  function TrackingKeys(trackingParams: Option<seq<string>>): (r: seq<string>)
    ensures |r| > 0
    ensures trackingParams.Some? && |trackingParams.value| > 0 ==> r == trackingParams.value
  {
    if trackingParams.Some? && |trackingParams.value| > 0 then trackingParams.value
    else DefaultTrackingKeys
  }

  /** The keys among `keys` whose query value (`params.get(key)`) is a non-empty
      string, with that value. */
  function Collected(keys: seq<string>, query: map<string, string>): (r: map<string, string>)
    ensures forall k :: k in r <==> k in keys && k in query && query[k] != ""
    ensures forall k :: k in r ==> r[k] == query[k]
  {
    map k | k in keys && k in query && query[k] != "" :: query[k]
  }

  /** The loop of the mount effect that fills `collected` (and `prefilled`): the
      keys are visited in order, each with a non-empty query value recorded. */
  method CollectParams(keys: seq<string>, query: map<string, string>) returns (collected: map<string, string>)
    ensures collected == Collected(keys, query)
  {
    collected := map[];
    var i := 0;
    while i < |keys|
      invariant 0 <= i <= |keys|
      invariant collected == Collected(keys[..i], query)
    {
      var key := keys[i];
      if key in query && query[key] != "" {
        collected := collected[key := query[key]];
      }
      assert keys[..i + 1] == keys[..i] + [key];
      i := i + 1;
    }
    assert keys[..i] == keys;
  }

  /** The field names of the form whose query value is non-empty are prefilled;
      tracking keys that are not field names never are. */
  lemma PrefillOnlyFieldNames(stages: seq<FormStage>, query: map<string, string>, key: string)
    requires key in Collected(FieldNamesInOrder(stages), query)
    ensures key in FieldNames(stages) && query[key] != ""
  {
    var names := FieldNamesInOrder(stages);
    var k :| 0 <= k < |names| && names[k] == key;
  }

  /** `stages.flatMap(s => s.fields || []).map(f => f.name)` */
  function FieldNamesInOrder(stages: seq<FormStage>): (r: seq<string>)
    ensures |r| == |AllFields(stages)|
    ensures forall k :: 0 <= k < |r| ==> r[k] == AllFields(stages)[k].name
  {
    var all := AllFields(stages);
    seq(|all|, k requires 0 <= k < |all| => all[k].name)
  }

  // ---------------------------------------------------------------------------
  // The payload

  /** One entry of `payload.attachments`. */
  datatype Attachment = Attachment(
    field: string,
    name: string,
    size: nat,
    mime: string,
    contentBase64: Option<string>,
    contentIncluded: bool)

  datatype Metadata = Metadata(submittedAt: string, source: string, turnstileToken: Option<string>)

  /** The body posted to the webhook; an absent key is `None`. */
  datatype Payload = Payload(
    formData: map<string, string>,
    metadata: Metadata,
    attachments: Option<seq<Attachment>>,
    tracking: Option<map<string, string>>)

  /** The hard cap on inlined file content, whatever the field allows: 5 MB. */
  const ContentCapBytes: nat := 5 * 1024 * 1024

  /** Some stage has a field named "website". */
  predicate HasWebsiteField(stages: seq<FormStage>) {
    "website" in FieldNames(stages)
  }

  /** The `formData` of the payload: a copy of the session's answers where, if the
      form has a website field, "website" is '' when toggled off and its
      normalised form otherwise, and "turnstileToken" is removed. */
  function SanitizedFormData(stages: seq<FormStage>, formData: map<string, string>,
                             toggled: map<string, bool>, libs: Libraries): (r: map<string, string>)
    ensures "turnstileToken" !in r
    ensures forall k :: k != "website" && k != "turnstileToken" ==>
      (k in r <==> k in formData) && (k in r ==> r[k] == formData[k])
    ensures HasWebsiteField(stages) ==>
      "website" in r &&
      r["website"] == if IsToggledOff(toggled, "website") then ""
                      else NormalizeWebsite(libs, ValueOf(formData, "website"))
    ensures !HasWebsiteField(stages) ==>
      ("website" in r <==> "website" in formData) && ("website" in r ==> r["website"] == formData["website"])
  {
    var withWebsite :=
      if HasWebsiteField(stages) then
        formData["website" := if IsToggledOff(toggled, "website") then ""
                              else NormalizeWebsite(libs, ValueOf(formData, "website"))]
      else formData;
    withWebsite - {"turnstileToken"}
  }

  /** The attachment made of one file of `field`: its content is read only when
      the file is within both the field's cap and the 5 MB cap, and it counts as
      included only when the read yields a non-empty encoding. `encode` is the
      base64 reader, `None` when reading fails. */
  function AttachmentFor(field: string, f: FileInfo, maxBytes: nat, encode: FileInfo -> Option<string>): (a: Attachment)
    ensures a.field == field && a.name == f.name && a.size == f.size && a.mime == f.mime
    ensures a.contentBase64.Some? ==> f.size <= maxBytes && f.size <= ContentCapBytes
    ensures a.contentIncluded <==>
      f.size <= maxBytes && f.size <= ContentCapBytes && encode(f).Some? && encode(f).value != ""
  {
    var base64 := if f.size <= maxBytes && f.size <= ContentCapBytes then encode(f) else None;
    Attachment(field, f.name, f.size, f.mime, base64, base64.Some? && base64.value != "")
  }

  /** The cap of a field as the submission computes it: from the first field of
      that name, 10 MB when there is none or it sets no cap. */
  function FieldCapBytes(stages: seq<FormStage>, field: string): nat {
    var fdef := GetFieldByName(stages, field);
    MaxBytes(if fdef.Some? then fdef.value.maxSizeMB else None)
  }

  /** The attachments of one upload entry, one per file, in order. */
  function EntryAttachments(stages: seq<FormStage>, u: Upload, encode: FileInfo -> Option<string>): (r: seq<Attachment>)
    ensures |r| == |u.files|
    ensures forall k :: 0 <= k < |r| ==> r[k] == AttachmentFor(u.field, u.files[k], FieldCapBytes(stages, u.field), encode)
  {
    var cap := FieldCapBytes(stages, u.field);
    seq(|u.files|, k requires 0 <= k < |u.files| => AttachmentFor(u.field, u.files[k], cap, encode))
  }

  /** All attachments, entry by entry in key order and file by file. */
  function AttachmentsOf(stages: seq<FormStage>, uploads: seq<Upload>, encode: FileInfo -> Option<string>): seq<Attachment> {
    if uploads == [] then []
    else AttachmentsOf(stages, uploads[..|uploads| - 1], encode) + EntryAttachments(stages, uploads[|uploads| - 1], encode)
  }

  /** The number of files over all upload entries. */
  function TotalFiles(uploads: seq<Upload>): nat {
    if uploads == [] then 0 else TotalFiles(uploads[..|uploads| - 1]) + |uploads[|uploads| - 1].files|
  }

  /** There is one attachment per uploaded file, so the `attachments` key is
      present exactly when some entry has a file. */
  lemma {:induction false} AttachmentsCount(stages: seq<FormStage>, uploads: seq<Upload>, encode: FileInfo -> Option<string>)
    ensures |AttachmentsOf(stages, uploads, encode)| == TotalFiles(uploads)
    ensures TotalFiles(uploads) == 0 <==> forall k :: 0 <= k < |uploads| ==> uploads[k].files == []
  {
    if uploads != [] {
      var init := uploads[..|uploads| - 1];
      AttachmentsCount(stages, init, encode);
      assert forall k :: 0 <= k < |init| ==> init[k] == uploads[k];
    }
  }

  /** The nested loops of `handleSubmit` that push one attachment per file. */
  method CollectAttachments(stages: seq<FormStage>, uploads: seq<Upload>, encode: FileInfo -> Option<string>)
    returns (attachments: seq<Attachment>)
    ensures attachments == AttachmentsOf(stages, uploads, encode)
  {
    attachments := [];
    var i := 0;
    while i < |uploads|
      invariant 0 <= i <= |uploads|
      invariant attachments == AttachmentsOf(stages, uploads[..i], encode)
    {
      var entry := uploads[i];
      var maxBytes := FieldCapBytes(stages, entry.field);
      ghost var before := attachments;
      var j := 0;
      while j < |entry.files|
        invariant 0 <= j <= |entry.files|
        invariant attachments == before + EntryAttachments(stages, Upload(entry.field, entry.files[..j]), encode)
      {
        attachments := attachments + [AttachmentFor(entry.field, entry.files[j], maxBytes, encode)];
        j := j + 1;
      }
      assert entry.files[..j] == entry.files;
      assert uploads[..i + 1][..i] == uploads[..i];
      i := i + 1;
    }
    assert uploads[..i] == uploads;
  }

  /** The payload of a submission: the sanitised answers; the time, the source
      "terminal-form-" + slug and the Turnstile token as metadata; the
      attachments only when there are some; the tracking data only when it is
      not empty. */
  function PayloadOf(config: FormConfig, formData: map<string, string>, toggled: map<string, bool>,
                     attachments: seq<Attachment>, tracking: map<string, string>,
                     libs: Libraries, now: string): (p: Payload)
    ensures p.formData == SanitizedFormData(config.stages, formData, toggled, libs)
    ensures p.metadata.submittedAt == now
    ensures p.metadata.source == "terminal-form-" + config.slug
    ensures p.metadata.turnstileToken.Some? <==> "turnstileToken" in formData
    ensures p.metadata.turnstileToken.Some? ==> p.metadata.turnstileToken.value == formData["turnstileToken"]
    ensures p.attachments.Some? <==> |attachments| > 0
    ensures p.attachments.Some? ==> p.attachments.value == attachments
    ensures p.tracking.Some? <==> |tracking| > 0
    ensures p.tracking.Some? ==> p.tracking.value == tracking
  {
    Payload(
      SanitizedFormData(config.stages, formData, toggled, libs),
      Metadata(now, "terminal-form-" + config.slug,
               if "turnstileToken" in formData then Some(formData["turnstileToken"]) else None),
      if |attachments| > 0 then Some(attachments) else None,
      if |tracking| > 0 then Some(tracking) else None)
  }

  /** The Turnstile token leaves `formData` for `metadata`: it is in the payload
      exactly once, and every other answer is carried over unchanged (apart from
      "website" when the form has that field). */
  lemma TurnstileTokenMoved(config: FormConfig, formData: map<string, string>, toggled: map<string, bool>,
                            attachments: seq<Attachment>, tracking: map<string, string>,
                            libs: Libraries, now: string)
    requires "turnstileToken" in formData
    ensures var p := PayloadOf(config, formData, toggled, attachments, tracking, libs, now);
      "turnstileToken" !in p.formData && p.metadata.turnstileToken == Some(formData["turnstileToken"])
      && forall k :: k in formData && k != "turnstileToken" && k != "website" ==>
           k in p.formData && p.formData[k] == formData[k]
  {
  }

  // ---------------------------------------------------------------------------
  // The webhook's reply

  /** The fields of the parsed JSON reply (`result?.status`, `result?.message`). */
  datatype ReplyBody = ReplyBody(status: Option<string>, message: Option<string>)

  /** What `fetch` gives: an exception with its message, or a response with its
      HTTP status and its JSON body (`None` when it does not parse). */
  datatype Reply = Threw(error: string) | Responded(httpStatus: int, body: Option<ReplyBody>)

  datatype SubmitStatus = Idle | Success | Failure

  /** `response.ok`: a 2xx status. */
  predicate ResponseOk(httpStatus: int) {
    200 <= httpStatus <= 299
  }

  /** Which override applies to a server message. */
  datatype ErrorKey = InvalidCaptcha | ProcessingError | Generic

  function ErrorKeyOf(message: Option<string>): (k: ErrorKey)
    ensures k == InvalidCaptcha <==> message == Some("Invalid Captcha")
    ensures k == ProcessingError <==> message == Some("Lead processing error")
  {
    if message == Some("Invalid Captcha") then InvalidCaptcha
    else if message == Some("Lead processing error") then ProcessingError
    else Generic
  }

  function Override(messages: ErrorMessages, key: ErrorKey): Option<string> {
    match key
    case InvalidCaptcha => messages.invalidCaptcha
    case ProcessingError => messages.processingError
    case Generic => messages.generic
  }

  const TransmissionFailed: string := "TRANSMISSION_FAILED. RETRY?"

  /** `a || b` on optional strings: `a` when it is a non-empty string. */
  function OrElse(a: Option<string>, b: string): (r: string)
    ensures a.Some? && a.value != "" ==> r == a.value
    ensures (a.None? || a.value == "") ==> r == b
  {
    if a.Some? && a.value != "" then a.value else b
  }

  /** The status and error text a reply leads to. */
  datatype Outcome = Outcome(status: SubmitStatus, errorMessage: string)

  /** The reply mapping of `handleSubmit`: an exception shows its message (or the
      fallback); a non-2xx status or a body with status "error" shows the override
      for the server message's kind, else the server message, else the fallback;
      anything else is a success. */
  function OutcomeOf(messages: ErrorMessages, reply: Reply): (o: Outcome)
    ensures o.status != Idle
    ensures o.status == Success <==>
      reply.Responded? && ResponseOk(reply.httpStatus)
      && !(reply.body.Some? && reply.body.value.status == Some("error"))
    ensures o.status == Success ==> o.errorMessage == ""
    ensures o.status == Failure ==> o.errorMessage != ""
  {
    match reply
    case Threw(e) => Outcome(Failure, if e != "" then e else TransmissionFailed)
    case Responded(httpStatus, body) =>
      var status := if body.Some? then body.value.status else None;
      var message := if body.Some? then body.value.message else None;
      if !ResponseOk(httpStatus) || status == Some("error") then
        Outcome(Failure, OrElse(Override(messages, ErrorKeyOf(message)), OrElse(message, TransmissionFailed)))
      else Outcome(Success, "")
  }

  /** A rejected reply shows the first non-empty of: the override for its kind,
      the server's message, "TRANSMISSION_FAILED. RETRY?". */
  lemma RejectedReplyMessage(messages: ErrorMessages, httpStatus: int, body: ReplyBody)
    requires !ResponseOk(httpStatus) || body.status == Some("error")
    ensures var o := OutcomeOf(messages, Responded(httpStatus, Some(body)));
      var configured := Override(messages, ErrorKeyOf(body.message));
      o.status == Failure &&
      (configured.Some? && configured.value != "" ==> o.errorMessage == configured.value) &&
      ((configured.None? || configured.value == "") && body.message.Some? && body.message.value != "" ==>
         o.errorMessage == body.message.value) &&
      ((configured.None? || configured.value == "") && (body.message.None? || body.message.value == "") ==>
         o.errorMessage == TransmissionFailed)
  {
  }

  /** "Invalid Captcha" and "Lead processing error" select their own overrides;
      any other message (or none) selects the generic one. */
  lemma ServerMessageSelectsOverride(messages: ErrorMessages, httpStatus: int, body: ReplyBody)
    requires !ResponseOk(httpStatus)
    ensures body.message == Some("Invalid Captcha") && messages.invalidCaptcha.Some? && messages.invalidCaptcha.value != ""
      ==> OutcomeOf(messages, Responded(httpStatus, Some(body))).errorMessage == messages.invalidCaptcha.value
    ensures body.message == Some("Lead processing error") && messages.processingError.Some? && messages.processingError.value != ""
      ==> OutcomeOf(messages, Responded(httpStatus, Some(body))).errorMessage == messages.processingError.value
    ensures body.message != Some("Invalid Captcha") && body.message != Some("Lead processing error")
      && messages.generic.Some? && messages.generic.value != ""
      ==> OutcomeOf(messages, Responded(httpStatus, Some(body))).errorMessage == messages.generic.value
  {
  }

  /** A 2xx reply whose body cannot be read is still a success. */
  lemma UnreadableOkReplySucceeds(messages: ErrorMessages, httpStatus: int)
    requires ResponseOk(httpStatus)
    ensures OutcomeOf(messages, Responded(httpStatus, None)) == Outcome(Success, "")
  {
  }
}
