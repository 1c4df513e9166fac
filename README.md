# TenX Africa website: the lead-intake forms and the site's small state machines

This project is a Dafny model of the logic behind the TenX Africa marketing site. It
covers three lead-intake forms and the small helpers around them.

- **TerminalFormChat** is the configuration-driven conversational form. The model covers:
  - its stages and per-field validation (`isStageValid`), and the lookup of a field by name;
  - the duplicate e-mail guard of `advanceStage`;
  - the file picker's filter and error notes;
  - the website normalisation and the tracking capture from the query string;
  - the lead payload with its two-tier attachment cap, and the mapping of the webhook's reply to an outcome.

  Modules `TerminalFields`, `TerminalPayload`, `TerminalPicker` and `TerminalSession` hold it. The component itself is the class `TerminalSession.Session`; each React handler is one of its methods.
- **DigitalConsultingChat** is the same conversation hard-coded (module `DigitalConsulting`). It has a fixed successor function over its stages, a gate per stage, the website toggle, the budget buttons, phone formatting and submission.
- **ContactForm** is a single-page form (module `ContactForm`). It builds an error map from its answers; editing a field clears only that field's error.
- **InsightsFilter** is the blog listing (module `InsightsFilter`). It filters by category and search term, shows fixed pages of six posts with clamped previous and next, resets to page 1 when a filter changes, and draws a page-number window with ellipses.
- **The status endpoint and the status pill** (`SystemStatus`, `StatusPill`). The endpoint checks HTTP health, takes the site name from the URL and counts systems up out of four. The pill maps that report to a text and a colour, and falls back to "all online" when the fetch fails.
- **Small components:**
  - the milestone progress bar (`ComingSoon`);
  - the accordion (`Accordion`), the cookie banner over local storage (`CookiesBanner`), and the mobile menu with its scroll lock and active-link test (`MobileMenu`);
  - the page headline split on '.' (`PageHero`);
  - the content cards (`BlogCard`, `TeamMember`, `ProjectCard`, `OnboardingSteps`). They share module `Cards`: an optional picture with an alt-text fallback, name initials, and the first three metrics with their labels.

`Text` gives JavaScript's string operations their meaning on `seq<char>`: `trim`, `split`, `join`, `toLowerCase`, `startsWith`, `includes`, decimal printing, `padStart` and the e-mail regular expression `^[^\s@]+@[^\s@]+\.[^\s@]+$`. It also holds `Math.round` of a non-negative quotient, computed exactly over integers. `Wrappers` holds `Option`.

**What the model takes as inputs:**
- **Libraries.** libphonenumber, the WHATWG URL parser and the base64 file reader are function-valued parameters. The phone and URL functions are bundled in `TerminalFields.Libraries`.
- **Network.** What a request returned is an argument of the handler that made it:
  - the e-mail lookup's answer;
  - the webhook's HTTP status and body;
  - the probes' HTTP statuses;
  - the pill's parsed JSON.
- **Query string and clock.** The query string is a map; the clock is a string argument.
- **Local storage** is a field of type `map<string, string>`.

Each React handler is one atomic step. State kept in `useState` becomes the fields of a class, and the handlers are methods whose `ensures` state the whole new state.

## Model

| member | source | states |
|---|---|---|
| TerminalFields.FormattedDisplay | src/components/TerminalFormChat.tsx:345-354 | the shown phone text after blur is the international format of the parsed number, or the typed text when parsing fails or the format is empty; a non-empty text never becomes empty |
| TerminalFields.FindField | src/components/TerminalFormChat.tsx:150 | `find` by name: a result carries the name and belongs to the list; no result exactly when no field has that name |
| TerminalFields.GetFieldByName | src/components/TerminalFormChat.tsx:148-154 | searching stage by stage finds the same field as one `find` over all fields of all stages in order |
| TerminalFields.GetFieldByNameFinds | src/components/TerminalFormChat.tsx:148-154 | a field is found exactly when the form has a field of that name, and the one found has that name and is a field of the form |
| TerminalFields.ToggledOffFieldValid | src/components/TerminalFormChat.tsx:274 | a field the user toggled off passes whatever its kind and value |
| TerminalFields.OptionalBlankFieldValid | src/components/TerminalFormChat.tsx:279 | an optional field with a blank value passes, so an optional file field passes whatever files were picked |
| TerminalFields.EmailFieldValidIff | src/components/TerminalFormChat.tsx:281-283 | an e-mail field passes iff it is optional and blank or its untrimmed value matches the e-mail pattern |
| TerminalFields.UrlFieldValidIff | src/components/TerminalFormChat.tsx:284-303 | a url field passes iff it is optional and blank, or it is not blank and the parser finds a host with a dot in the text as typed or with https:// in front |
| TerminalFields.PhoneFieldValidIff | src/components/TerminalFormChat.tsx:304-309 | a phone field passes iff it is optional and blank, or it is not blank and the shown text (the answer when nothing is shown) parses as a valid number for the chosen country |
| TerminalFields.PlainFieldValidIff | src/components/TerminalFormChat.tsx:311-313 | text, radio, select and a textarea without minimum length pass iff toggled off, optional, or the trimmed value is non-empty |
| TerminalFields.MinLengthTextareaValidIff | src/components/TerminalFormChat.tsx:311-313 | a required textarea with a minimum length passes iff its untrimmed length reaches the minimum |
| TerminalFields.RequiredFileFieldValidIff | src/components/TerminalFormChat.tsx:314-331 | a required file field fails with no files, otherwise passes iff every file is within (maxSizeMB ?? 10)·1024·1024 bytes and some trimmed comma-separated mask accepts its MIME type (a mask ending in '/*' as a prefix once that suffix is removed, any other mask exactly; no accept allows any) |
| TerminalFields.StageValidIff | src/components/TerminalFormChat.tsx:265-272 | a stage is valid iff no e-mail check is running and every field is valid; a stage without fields is valid |
| TerminalPayload.StripWww | src/components/TerminalFormChat.tsx:208 | exactly one leading "www." (any case) is removed, nothing else changes |
| TerminalPayload.StripSchemeLoose | src/components/TerminalFormChat.tsx:212 | the result is a suffix; a leading https:// or http:// (any case) is removed, a text not starting with "http" is unchanged |
| TerminalPayload.NormalizeWebsite | src/components/TerminalFormChat.tsx:201-216 | blank gives ''; otherwise the parser's hostname of the (https-prefixed) trimmed value without one leading "www.", or, when parsing fails, the stripped text up to its first '/' |
| TerminalPayload.NormalizeFullUrl | src/components/TerminalFormChat.tsx:200-209 | a URL 'https://www.' + domain + path whose parsed host is 'www.' + domain normalises to the bare domain, so 'https://www.example.com/path' gives 'example.com' |
| TerminalPayload.NormalizeParsed | src/components/TerminalFormChat.tsx:202-209 | a value that is already trimmed and carries an http(s) scheme goes to the parser unchanged, and the result is the hostname less one leading "www." |
| TerminalPayload.NormalizePrefixed | src/components/TerminalFormChat.tsx:202-209 | any value whose trimmed text is non-empty and has no http(s) scheme is parsed with "https://" in front, and the result is the hostname less one leading "www." |
| TerminalPayload.NormalizeBareDomain | src/components/TerminalFormChat.tsx:202-209 | an illustration of the one above: a padded bare domain (not starting with 'h' or 'w') is trimmed, prefixed with https:// for the parser, and comes back as the domain |
| TerminalPayload.TrackingKeys | src/components/TerminalFormChat.tsx:167-169 | the configured tracking keys when non-empty, otherwise the non-empty default list (token and the utm keys) |
| TerminalPayload.Collected | src/components/TerminalFormChat.tsx:174-177 | a key is collected iff it is listed and its query value is non-empty, with that value |
| TerminalPayload.CollectParams | src/components/TerminalFormChat.tsx:174-177 | the `forEach` loop builds exactly the collected map |
| TerminalPayload.FieldNamesInOrder | src/components/TerminalFormChat.tsx:180-182 | the names of all fields of all stages, position by position |
| TerminalPayload.PrefillOnlyFieldNames | src/components/TerminalFormChat.tsx:184-187 | a prefilled key is a field name of the form with a non-empty query value; tracking keys that are not field names are never prefilled |
| TerminalPayload.SanitizedFormData | src/components/TerminalFormChat.tsx:387-393 | the payload's answers are the session's with "turnstileToken" removed and, when the form has a website field, "website" set to '' if toggled off and to its normalised form otherwise; every other answer is carried over |
| TerminalPayload.AttachmentFor | src/components/TerminalFormChat.tsx:412-428 | an attachment copies the file's name, size and type; content is read only within both the field cap and 5 MB, and it is marked included iff the read gives a non-empty encoding |
| TerminalPayload.EntryAttachments | src/components/TerminalFormChat.tsx:407-429 | one attachment per file of an entry, in order, under the cap of the field's first definition (10 MB by default) |
| TerminalPayload.AttachmentsCount | src/components/TerminalFormChat.tsx:404-431 | there is one attachment per picked file, and none exactly when every entry is empty |
| TerminalPayload.CollectAttachments | src/components/TerminalFormChat.tsx:406-429 | the nested loops build exactly the attachment list, entry by entry and file by file |
| TerminalPayload.PayloadOf | src/components/TerminalFormChat.tsx:395-439 | the payload holds the sanitised answers, the time, the source "terminal-form-" + slug and the token; it has attachments iff there are some and tracking iff it is non-empty |
| TerminalPayload.TurnstileTokenMoved | src/components/TerminalFormChat.tsx:436-439 | the Turnstile token leaves the answers for the metadata; every other answer but "website" is carried over |
| TerminalPayload.ErrorKeyOf | src/components/TerminalFormChat.tsx:464-468 | 'Invalid Captcha' selects the captcha override, 'Lead processing error' the processing override, anything else the generic one |
| TerminalPayload.OrElse | src/components/TerminalFormChat.tsx:470 | `a \|\| b`: a when it is a non-empty string, b otherwise |
| TerminalPayload.OutcomeOf | src/components/TerminalFormChat.tsx:446-480 | the outcome is success iff the reply is 2xx and its body does not say status 'error'; success carries no message and failure always a non-empty one |
| TerminalPayload.RejectedReplyMessage | src/components/TerminalFormChat.tsx:463-471 | a rejected reply shows the first non-empty of the configured override, the server's message, 'TRANSMISSION_FAILED. RETRY?' |
| TerminalPayload.ServerMessageSelectsOverride | src/components/TerminalFormChat.tsx:464-469 | 'Invalid Captcha' shows the configured captcha override and 'Lead processing error' the processing override; any other message shows the generic override |
| TerminalPayload.UnreadableOkReplySucceeds | src/components/TerminalFormChat.tsx:452-457 | a 2xx reply whose body does not parse is still a success |
| TerminalPicker.Extension | src/components/TerminalFormChat.tsx:635 | the extension is the part after the last '.' of the lowercased name: it contains no '.' and ends the name |
| TerminalPicker.DefaultMaskAcceptsPdf | src/components/TerminalFormChat.tsx:631-643 | with no accept string the picker takes a file iff its type is application/pdf or its extension is pdf |
| TerminalPicker.Kept | src/components/TerminalFormChat.tsx:645-651 | the kept files are never more than the picked ones |
| TerminalPicker.KeptIff | src/components/TerminalFormChat.tsx:645-651 | a file is kept iff it was picked and passes both the type and the size check |
| TerminalPicker.KeptAppend | src/components/TerminalFormChat.tsx:645-651 | filtering keeps the picked order: filtering two picks in a row is filtering each |
| TerminalPicker.KeptAllIff | src/components/TerminalFormChat.tsx:645-651 | every picked file is kept iff each passes both checks |
| TerminalPicker.NothingKeptNoWrongType | src/components/TerminalFormChat.tsx:653-658 | when nothing is kept and no file had a bad type, every file was too big, which is why the size message is shown |
| TerminalPicker.IgnoredNotes | src/components/TerminalFormChat.tsx:660-664 | one note for ignored types and one for ignored sizes, each only when its count is positive |
| TerminalPicker.PickError | src/components/TerminalFormChat.tsx:653-665 | an empty pick clears the error; nothing kept gives the type message if any type was bad and the size message otherwise; otherwise no error iff nothing was ignored |
| TerminalPicker.BothNotes | src/components/TerminalFormChat.tsx:660-665 | with both kinds ignored, the error is the type note and the size note joined by ', ' |
| TerminalPicker.UploadFields | src/components/TerminalFormChat.tsx:136-137 | the fields that have uploads, in the order they first got files |
| TerminalPicker.SetUpload | src/components/TerminalFormChat.tsx:652 | replacing a field's files keeps the key order and appends a new field at the end |
| TerminalPicker.SetUploadFiles | src/components/TerminalFormChat.tsx:652 | after the replacement the field holds exactly the new files and every other field its old ones |
| TerminalPicker.SetUploadDistinct | src/components/TerminalFormChat.tsx:652 | replacing files never gives a field two entries |
| TerminalPicker.PdfExtensionMaskDisagrees | src/components/TerminalFormChat.tsx:314-331 | for a required field with accept exactly '.pdf', any attached file whose MIME type is not the text '.pdf' (every real type, '' included) makes the field fail, although the picker keeps it whenever its extension is 'pdf' and it is within the cap |
| TerminalPicker.PdfFieldValidIff | src/components/TerminalFormChat.tsx:314-331 | with accept '.pdf' a required field passes iff it has files, each within the cap and of MIME type '.pdf' itself |
| TerminalPicker.PickerKeepsByExtension | src/components/TerminalFormChat.tsx:641 | the picker's '.pdf' mask keeps a file iff its lowercased extension is 'pdf' |
| TerminalPicker.DotPdfMaskExact | src/components/TerminalFormChat.tsx:318-327 | the validator's mask test has no extension case: '.pdf' accepts a MIME type iff it is exactly '.pdf' |
| TerminalPicker.WildcardMaskIsPrefixStar | src/components/TerminalFormChat.tsx:321-327 | the mask '*/*' ends in '/*', so it is read as the prefix '*' and accepts a MIME type iff it starts with '*'; its own test in the second branch is never reached |
| TerminalSession.FirstEmailField | src/components/TerminalFormChat.tsx:229 | the first e-mail field of the stage, if any; none exactly when the stage has no e-mail field |
| TerminalSession.EmailGuard | src/components/TerminalFormChat.tsx:229-231 | the duplicate guard applies iff the current stage has an e-mail field and a lookup URL is configured |
| TerminalSession.AdvanceKeepsHistory | src/components/TerminalFormChat.tsx:258-261 | if the history lists the stages before the current one, it still does after advancing |
| TerminalSession.AdvanceStopsIff | src/components/TerminalFormChat.tsx:227-262 | the stage stays, with the duplicate message naming the contact or 'this contact', iff the guard applies, the trimmed e-mail is non-empty and the lookup says it exists; a failed lookup moves on; moving on appends the index and adds exactly one |
| TerminalSession.LookupOnlyForEmail | src/components/TerminalFormChat.tsx:231-233 | without an e-mail to look up, the lookup's answer makes no difference |
| TerminalSession.Toggle | src/components/TerminalFormChat.tsx:786 | the toggle flips the named field's opt-out and no other |
| TerminalSession.ToggleTwice | src/components/TerminalFormChat.tsx:786 | toggling a field twice restores every opt-out |
| TerminalSession.SecurityIndex | src/components/TerminalFormChat.tsx:825 | `findIndex`: the first stage with id 'security', none when no stage has that id |
| TerminalSession.FieldMaxSizeMB | src/components/TerminalFormChat.tsx:629-630 | the picker's cap in MB times 1024·1024 is the submission's cap in bytes |
| TerminalSession.RecordError | src/components/TerminalFormChat.tsx:652-665 | the field's error entry is set or removed, the other fields' errors stay |
| TerminalSession.Session.constructor | src/components/TerminalFormChat.tsx:118-138 | the initial state: stage 0, empty history, answers, opt-outs, uploads and errors, country ZA |
| TerminalSession.Session.CaptureTracking | src/components/TerminalFormChat.tsx:166-194 | the tracking data is the collected tracking keys; the answers gain the form's own field names found in the query |
| TerminalSession.Session.SetFieldValue | src/components/TerminalFormChat.tsx:500 | typing in a live text, e-mail, url, textarea or select input of the current stage (all but the textarea hidden while toggled off; a select gives only one of its options' values) stores the value under the field's name, nothing else changes |
| TerminalSession.Session.TypePhone | src/components/TerminalFormChat.tsx:571-574 | typing in the live phone input of the current stage shows and stores the text |
| TerminalSession.Session.SelectCountry | src/components/TerminalFormChat.tsx:536-545 | the dropdown of the live phone input makes the chosen country code current |
| TerminalSession.Session.BlurPhone | src/components/TerminalFormChat.tsx:345-354 | on the live phone input: an empty display changes nothing; otherwise the display is formatted and "phone" holds the parsed number or the typed text |
| TerminalSession.Session.ToggleField | src/components/TerminalFormChat.tsx:783-791 | the toggle button, drawn only under a field of the live stage with a toggle label, makes the opt-outs the toggled map |
| TerminalSession.Session.PickFiles | src/components/TerminalFormChat.tsx:627-666 | on a live file input of the current stage that is not toggled off: the field's files become exactly the kept picks, other fields keep theirs, key order is kept, and the field's error follows the picker's rules |
| TerminalSession.Session.Advance | src/components/TerminalFormChat.tsx:227-262 | `advanceStage` run on the answers its closure saw: the new stage, history and message are those of the advance function, and the history invariant is kept |
| TerminalSession.Session.AdvanceStage | src/components/TerminalFormChat.tsx:227-262 | `advanceStage` on the current answers |
| TerminalSession.Session.PressEnter | src/components/TerminalFormChat.tsx:338-341 | Enter in a live text, e-mail, url or select input that is not toggled off (on a stage in range, not 'security', before success) advances iff the current stage is valid |
| TerminalSession.Session.PressPhoneEnter | src/components/TerminalFormChat.tsx:357-368 | only where the current stage draws a phone input: Enter in a non-blank phone input formats and stores the number and advances without validation, on the answers before the formatting; blank changes nothing |
| TerminalSession.Session.ClickRadio | src/components/TerminalFormChat.tsx:701-717 | a click on an option of a radio group of the live stage stores that option's value and advances without validation, on the answers before the click |
| TerminalSession.Session.ClickAdvanceButton | src/components/TerminalFormChat.tsx:763-764 | the button advances iff it is shown: no radio group, a stage asking for it, and a valid stage |
| TerminalSession.Session.VerifyTurnstile | src/components/TerminalFormChat.tsx:818-853 | the widget, drawn only while Turnstile is required and the security stage is current, stores its token with the answers |
| TerminalSession.Session.Submit | src/components/TerminalFormChat.tsx:372-481 | a blank webhook URL fails with 'WEBHOOK_NOT_CONFIGURED' and sends nothing; otherwise the payload of the current state is sent and the reply decides status and message |
| TerminalSession.Session.ClickSubmit | src/components/TerminalFormChat.tsx:819-864 | the submit button acts only on the current security stage with a token and before a success (after one, only the success screen is drawn, 898-900, and a click sends nothing and changes nothing); then a blank webhook URL fails with 'WEBHOOK_NOT_CONFIGURED' and sends nothing, and otherwise the payload of the current answers is sent, its metadata carries that token and the reply decides the outcome |
| DigitalConsulting.Order | src/components/DigitalConsultingChat.tsx:112-119 | each stage has its position on the path identity → contact → phone → context → challenge → qualification → security → complete |
| DigitalConsulting.Successor | src/components/DigitalConsultingChat.tsx:112-120 | every stage but 'complete' moves one step along the path; 'complete' stays |
| DigitalConsulting.ContextGateIgnoresWebsite | src/components/DigitalConsultingChat.tsx:346-368 | the company stage moves on iff the company is not blank, whatever the website answer |
| DigitalConsulting.WithText | src/components/DigitalConsultingChat.tsx:161 | typing replaces only that input's answer |
| DigitalConsulting.ToggleWebsite | src/components/DigitalConsultingChat.tsx:358 | the toggle flips hasWebsite and always clears the website, nothing else changes |
| DigitalConsulting.ToggleWebsiteTwice | src/components/DigitalConsultingChat.tsx:358 | toggling twice restores the flag but loses a website typed before |
| DigitalConsulting.AdvanceFrom | src/components/DigitalConsultingChat.tsx:108-121 | the stage advanced from joins the history and its successor becomes current; from 'complete' the stage stays while the history still grows |
| DigitalConsulting.WalkFollowsPath | src/components/DigitalConsultingChat.tsx:108-121 | always advancing from the current stage visits the path in order, the history holding the stages before the current one |
| DigitalConsulting.EnterInEarlierBlockGoesBack | src/components/DigitalConsultingChat.tsx:585-591 | a completed block stays on screen with a live input: Enter there records its stage again and makes its successor current |
| DigitalConsulting.Consulting.constructor | src/components/DigitalConsultingChat.tsx:66-86 | the initial state: stage identity, empty history and answers, a website expected, country ZA |
| DigitalConsulting.Consulting.AdvanceStage | src/components/DigitalConsultingChat.tsx:108-121 | the stage and history become those of the advance function, and no history entry is 'security' or 'complete' |
| DigitalConsulting.Consulting.PressEnter | src/components/DigitalConsultingChat.tsx:123-127 | Enter in an input of a block on screen advances from that block iff its gate holds (a trimmed name, a pattern-matching e-mail, a non-blank phone, a trimmed company); in the company block only the website input has an Enter handler, so Enter exists there only while a website is expected |
| DigitalConsulting.CompanyBlockEnterNeedsWebsite | src/components/DigitalConsultingChat.tsx:325-350 | the company block reacts to Enter iff a website is expected, and the website toggle switches that |
| DigitalConsulting.Consulting.ClickNext | src/components/DigitalConsultingChat.tsx:366-368 | the next-step button advances from the current stage iff its gate holds (including a challenge of at least 50 untrimmed characters) |
| DigitalConsulting.WebsiteConsistentKept | src/components/DigitalConsultingChat.tsx:74-75 | the initial answers, the toggle, and typing into a drawn input all keep "no website expected implies no website" |
| DigitalConsulting.Consulting.TypeText | src/components/DigitalConsultingChat.tsx:161 | typing into an input of a block on screen before success (the website input only while a website is expected, 338) replaces that input's answer and keeps the website consistent with its flag |
| DigitalConsulting.Consulting.ClickWebsiteToggle | src/components/DigitalConsultingChat.tsx:355-362 | in the live company block, the answers become the toggled ones |
| DigitalConsulting.Consulting.ClickBudget | src/components/DigitalConsultingChat.tsx:431-436 | the budget is exactly the option clicked and the flow moves from 'qualification' to 'security' |
| DigitalConsulting.Consulting.TypePhone | src/components/DigitalConsultingChat.tsx:287-290 | typing in the phone block on screen shows and stores the text |
| DigitalConsulting.Consulting.SelectCountry | src/components/DigitalConsultingChat.tsx:251-260 | a country picked in the dropdown of the live phone block becomes the one phone numbers are parsed against |
| DigitalConsulting.Consulting.BlurPhone | src/components/DigitalConsultingChat.tsx:129-138 | in the phone block on screen: an empty display changes nothing; otherwise the display is formatted and the phone holds the parsed number or the raw text |
| DigitalConsulting.Consulting.VerifyTurnstile | src/components/DigitalConsultingChat.tsx:502-507 | the widget, drawn only in the live security block, stores its token with the answers |
| DigitalConsulting.Consulting.Submit | src/components/DigitalConsultingChat.tsx:452-486 | with no webhook nothing is sent and it succeeds; otherwise every answer with the time and source 'digital-consulting-terminal' is sent and only a 2xx succeeds; success completes the flow, failure shows 'TRANSMISSION_FAILED. RETRY?' |
| DigitalConsulting.Consulting.ClickSubmit | src/components/DigitalConsultingChat.tsx:452-516 | the submit button acts only on the security stage once a token is set; then a payload is sent iff a webhook is configured, success (no webhook, or a 2xx) completes the flow, and failure stays on security with 'TRANSMISSION_FAILED. RETRY?'; a payload sent without a website expected carries no website |
| ContactForm.Answers.With | src/components/ContactForm.tsx:107 | the edited field takes the value and every other field keeps its answer |
| ContactForm.ErrorsOf | src/components/ContactForm.tsx:67-86 | name gets 'Name is required' iff blank; e-mail gets 'Email is required' when blank and 'Please enter a valid email' when the untrimmed text fails the pattern; message gets 'Message is required' iff blank; no other field ever has an error |
| ContactForm.ValidIff | src/components/ContactForm.tsx:67-86 | no errors iff the name and message are not blank and the e-mail matches the pattern |
| ContactForm.UncheckedFieldsIgnored | src/components/ContactForm.tsx:67-86 | editing the phone, company or interest never changes the errors |
| ContactForm.Form.constructor | src/components/ContactForm.tsx:52-61 | every answer empty except the interest, which is the given default; no errors |
| ContactForm.Form.Validate | src/components/ContactForm.tsx:67-86 | the check-by-check build stores exactly the error map, and the result is true iff it is empty |
| ContactForm.Form.Submit | src/components/ContactForm.tsx:88-101 | the errors are stored; the form is marked submitted iff it was already or it is valid; no submission stays under way |
| ContactForm.Form.Change | src/components/ContactForm.tsx:103-113 | only the edited answer changes, only its error is cleared, every other error stays |
| InsightsFilter.FilterKeeps | src/components/InsightsFilter.tsx:28-44 | `filter` keeps exactly the members satisfying the test, in order, never adding any |
| InsightsFilter.FilteredIsOnePass | src/components/InsightsFilter.tsx:23-46 | the listed posts are, in order, the posts in the category ('All' or a tag equal ignoring case) that match a non-blank term in title, excerpt, a tag or author; 'All' with a blank term keeps every post |
| InsightsFilter.TotalPages | src/components/InsightsFilter.tsx:50 | the page count is the ceiling of n/6, and zero exactly for no posts |
| InsightsFilter.Page | src/components/InsightsFilter.tsx:51-55 | a page holds at most six posts |
| InsightsFilter.FirstPagesFlatten | src/components/InsightsFilter.tsx:51-55 | the first k pages together are the first 6k posts |
| InsightsFilter.PagesCoverList | src/components/InsightsFilter.tsx:50-55 | pages 1 to the page count together are exactly the filtered list |
| InsightsFilter.PagesAreFull | src/components/InsightsFilter.tsx:50-55 | every page in range is non-empty and every page before the last is full |
| InsightsFilter.ShownStates | src/components/InsightsFilter.tsx:183-216 | the controls show iff there are at least two pages (more than six posts); the empty state iff there are none |
| InsightsFilter.PageNumbersMembers | src/components/InsightsFilter.tsx:229-309 | a page is listed iff it is in range and either there are at most seven pages, or it is the first, the last, or within one of the current page |
| InsightsFilter.PageNumbersOrdered | src/components/InsightsFilter.tsx:229-309 | the listed pages strictly ascend, stay in range and include the current page |
| InsightsFilter.GapsMarkSkippedPages | src/components/InsightsFilter.tsx:263-291 | the left ellipsis shows iff a page between the first and the current one is skipped, the right one iff one between the current and the last is |
| InsightsFilter.Insights.Shown | src/components/InsightsFilter.tsx:51-55 | the visible page has at most six posts and is non-empty whenever some post matches |
| InsightsFilter.Insights.constructor | src/components/InsightsFilter.tsx:18-20 | category 'All', empty search, page 1 |
| InsightsFilter.Insights.SelectCategory | src/components/InsightsFilter.tsx:58-60 | a new category resets the page to 1; choosing the current one keeps the page |
| InsightsFilter.Insights.TypeSearch | src/components/InsightsFilter.tsx:58-60 | a changed term resets the page to 1; the same term keeps the page |
| InsightsFilter.Insights.PreviousPage | src/components/InsightsFilter.tsx:77-80 | previous goes down one page but never below 1 |
| InsightsFilter.Insights.NextPage | src/components/InsightsFilter.tsx:82-85 | next goes up one page but never above the page count |
| InsightsFilter.Insights.GoToPage | src/components/InsightsFilter.tsx:234-298 | a listed page number button makes that page current and keeps the state valid |
| Text.RoundDiv | src/pages/api/system-status.ts:71 | `Math.round(a / b)` on exact integers: the nearest integer, halves rounding up |
| SystemStatus.SiteName | src/pages/api/system-status.ts:34 | the third '/'-separated piece exists iff the URL has at least two '/' |
| SystemStatus.SiteNameIsHost | src/pages/api/system-status.ts:34 | for scheme//host[/path] the site name is the host |
| SystemStatus.ProbedSiteNames | src/pages/api/system-status.ts:52-55 | the two probed URLs are named cal.tenxafrica.co.za and tenxafrica.co.za |
| SystemStatus.CheckSite | src/pages/api/system-status.ts:11-49 | a site is up iff it answered with 200 ≤ status < 400; a thrown request is down with no status |
| SystemStatus.SummaryCounts | src/pages/api/system-status.ts:64-72 | systems up is 3·[cal up] + [main up], in {0,1,3,4} out of 4; the percentage is 25 times that; all online iff both are up |
| SystemStatus.Get | src/pages/api/system-status.ts:74-105 | the reply is always HTTP 200, JSON, Cache-Control no-store |
| SystemStatus.GetReports | src/pages/api/system-status.ts:51-97 | all online iff both probes answered with a healthy status; the details carry each site's host and answer |
| SystemStatus.DetailHostKeys | src/pages/api/system-status.ts:81-95 | the subdomains entry gives its host under 'representative', the main domain entry under 'site' |
| StatusPill.StatusText | src/components/SystemStatusPill.tsx:51-53 | 'ALL_SYSTEMS_ONLINE' when all online, otherwise 'SYSTEMS_' … '%_ONLINE' |
| StatusPill.StatusTextIff | src/components/SystemStatusPill.tsx:51-53 | the text says all online iff the status does, and two partly-online texts are equal iff their percentages are |
| StatusPill.ColourBands | src/components/SystemStatusPill.tsx:55-61 | gold iff all online; otherwise yellow from 75%, orange from 50% to below 75%, red below 50% |
| StatusPill.Pill.constructor | src/components/SystemStatusPill.tsx:11-12 | no status and loading at first |
| StatusPill.Pill.Settle | src/components/SystemStatusPill.tsx:15-32 | after a fetch the status is the parsed one or the all-online fallback (4/4, 100%), and loading is over for good |
| StatusPill.Pill.Shown | src/components/SystemStatusPill.tsx:40-61 | 'CHECKING_SYSTEMS...' exactly while loading |
| StatusPill.ShownDependsOnTwoFields | src/components/SystemStatusPill.tsx:51-61 | once loaded, the display depends only on allOnline and percentageUp |
| StatusPill.FailureLooksOnline | src/components/SystemStatusPill.tsx:22-28 | a failed fetch shows a gold 'ALL_SYSTEMS_ONLINE' |
| StatusPill.ReportColours | src/components/SystemStatusPill.tsx:51-61 | on the endpoint's report the pill is gold iff both sites are up, yellow iff only the main site is down, red iff the cal site is down, never orange |
| ComingSoon.Completed | src/components/ComingSoon.tsx:52 | the completed count never exceeds the number of milestones |
| ComingSoon.CompletedSplit | src/components/ComingSoon.tsx:52 | the count of a list is the count before a milestone, plus that one's, plus the count after |
| ComingSoon.ProgressBounds | src/components/ComingSoon.tsx:53-55 | progress is between 10 and 100, and strictly inside that range it is the completed share to the nearest percent |
| ComingSoon.ProgressEnds | src/components/ComingSoon.tsx:53-55 | all complete (and some milestone) gives 100; none complete or no milestones gives 10 |
| ComingSoon.ProgressMonotone | src/components/ComingSoon.tsx:54 | more milestones complete never lowers the bar |
| ComingSoon.DefaultProgress | src/components/ComingSoon.tsx:33-37 | the default milestones give 1 complete and 33% |
| ComingSoon.MissingStatusIsQueued | src/components/ComingSoon.tsx:157-168 | a milestone without status shows as queued ('Next') and does not count as complete |
| ComingSoon.DoneIffCounted | src/components/ComingSoon.tsx:166 | 'Done' shows iff the milestone is the kind the count counts |
| Accordion.AfterClick | src/components/AccordionSection.tsx:43 | clicking the open item closes all; clicking any other opens it alone |
| Accordion.ClickTwice | src/components/AccordionSection.tsx:43 | two clicks on an item restore the state iff nothing or that item was open; otherwise they close everything |
| Accordion.ViewOf | src/components/AccordionSection.tsx:52-77 | an item shows its details and a 180° arrow iff it is the open one |
| Accordion.AtMostOneOpen | src/components/AccordionSection.tsx:77 | at most one item shows its details |
| Accordion.Accordion.constructor | src/components/AccordionSection.tsx:19 | item 0 starts open |
| Accordion.Accordion.Click | src/components/AccordionSection.tsx:43-77 | the clicked item is open afterwards iff it was closed, and every other item is closed |
| CookiesBanner.Banner.constructor | src/components/CookiesBanner.tsx:5 | the banner starts hidden |
| CookiesBanner.Banner.Mount | src/components/CookiesBanner.tsx:7-14 | the banner is scheduled iff no answer (or an empty one) is stored |
| CookiesBanner.Banner.TimerFires | src/components/CookiesBanner.tsx:12 | the timer shows the banner |
| CookiesBanner.Banner.Accept | src/components/CookiesBanner.tsx:16-19 | stores 'true' under 'cookiesAccepted' and nothing else, and hides the banner |
| CookiesBanner.Banner.Decline | src/components/CookiesBanner.tsx:21-24 | stores 'false' under 'cookiesAccepted' and nothing else, and hides the banner |
| CookiesBanner.AnswerSuppressesBanner | src/components/CookiesBanner.tsx:9-10 | any stored non-empty answer, 'false' included, keeps the banner from being scheduled |
| CookiesBanner.Visit | src/components/CookiesBanner.tsx:7-24 | one visit leaves an answer stored, touches no other key, and changes nothing when an answer was already stored |
| MobileMenu.ActiveIff | src/components/MobileMenu.tsx:31-36 | home is active iff the path is exactly '/'; any other link iff the path starts with it |
| MobileMenu.PrefixNotSegment | src/components/MobileMenu.tsx:35 | the test is a plain prefix: '/consultingX' counts as under '/consulting' |
| MobileMenu.AtMostOneActive | src/components/MobileMenu.tsx:10-36 | no path makes two of the seven links active |
| MobileMenu.MenuRows | src/components/MobileMenu.tsx:94-107 | one row per link, in order, highlighted iff it is active |
| MobileMenu.Navigation.constructor | src/components/MobileMenu.tsx:24 | closed, not yet mounted, no scroll lock |
| MobileMenu.Navigation.Mount | src/components/MobileMenu.tsx:27-29 | the mount flag is set |
| MobileMenu.Navigation.Shown | src/components/MobileMenu.tsx:50 | the menu is drawn iff it is mounted, on the page and open |
| MobileMenu.Navigation.ApplyScrollLock | src/components/MobileMenu.tsx:39-48 | the body is locked iff the menu is open, and unlocked once it is gone |
| MobileMenu.Navigation.Toggle | src/components/MobileMenu.tsx:172 | the button flips the open flag and the lock follows |
| MobileMenu.Navigation.Close | src/components/MobileMenu.tsx:173 | closing clears the open flag and the lock |
| MobileMenu.Navigation.ClickLink | src/components/MobileMenu.tsx:102-107 | a link click closes the menu and goes to that link |
| MobileMenu.Navigation.ClickCta | src/components/MobileMenu.tsx:116-128 | the 'Join Network' link closes the menu and goes to '/contact?interest=network', a path under the Contact section |
| MobileMenu.Navigation.Unmount | src/components/MobileMenu.tsx:45-47 | teardown releases the lock |
| PageHero.Spans | src/components/PageHero.tsx:42-48 | one span per '.'-separated part |
| PageHero.SpansOf | src/components/PageHero.tsx:42-48 | each part is a span, followed by '.' and a break iff it is not the last |
| PageHero.SpansJoin | src/components/PageHero.tsx:42-48 | the spans render the parts joined by '.', with one break fewer than parts |
| PageHero.SpansRebuildHeadline | src/components/PageHero.tsx:42-48 | the rendered text equals the headline, and the breaks equal its number of '.' |
| PageHero.SpanEdges | src/components/PageHero.tsx:42-48 | no '.' gives one span without break; a trailing '.' gives an empty last span |
| PageHero.View | src/components/PageHero.tsx:51-62 | the subheadline shows iff it is non-empty, the children block iff there are children |
| Cards.PictureIfSource | src/components/BlogCard.tsx:46-50 | a picture shows iff its source is non-empty, with its own alt or else the fallback text |
| Cards.InitialsAreWordStarts | src/components/BlogCard.tsx:99 | the initials are the characters that start a word of the name, in order: repeated spaces add nothing and no initial is a space |
| Cards.InitialsOfWords | src/components/TeamMember.tsx:58 | a name of non-empty single-space-separated words gets one initial per word, its first character |
| Cards.MetricLabel | src/components/OnboardingSteps.tsx:141 | the label is the key with every '_' turned into ' ': same length, no '_', other characters unchanged |
| Cards.ShownMetrics | src/components/ProjectCard.tsx:76-82 | the first three metrics in order, each with its value and labelled key |
| Cards.MetricLabelFixed | src/components/ProjectCard.tsx:82 | a key without '_' is its own label, and labelling is idempotent |
| BlogCard.Href | src/components/BlogCard.tsx:26 | the link is '/insights/' followed by the slug |
| BlogCard.HrefInjective | src/components/BlogCard.tsx:26 | two posts share a link iff they share a slug |
| BlogCard.ShownTags | src/components/BlogCard.tsx:67 | at most the first three tags, in their order |
| BlogCard.Badge | src/components/BlogCard.tsx:56 | the badge ends in ' min read' |
| BlogCard.BadgeReadsBack | src/components/BlogCard.tsx:56 | the badge starts with the decimal digits of the reading time, which read back as it |
| BlogCard.ViewOfPost | src/components/BlogCard.tsx:26-99 | the card's link, first three tags, picture with the title as alt fallback, and author initials |
| TeamMember.DefaultOnly | src/components/TeamMember.tsx:78-93 | stats, bio and LinkedIn show iff present and the variant is not compact |
| TeamMember.ViewOfMember | src/components/TeamMember.tsx:47-93 | a picture with the name as alt fallback when there is an image, the initials otherwise; compact hides stats, bio and LinkedIn |
| ProjectCard.ViewOfProject | src/components/ProjectCard.tsx:37-82 | picture with the title as alt fallback, category and location always, the first three metrics with their labels |
| OnboardingSteps.StepLabelReadsBack | src/components/OnboardingSteps.tsx:47 | the label has at least two digits, one leading '0' for single digits, unchanged otherwise, and reads back as the step |
| OnboardingSteps.StepLabelInjective | src/components/OnboardingSteps.tsx:47 | different steps get different labels |
| OnboardingSteps.View | src/components/OnboardingSteps.tsx:23-47 | one labelled card per step, in order; the heading shows iff the title is non-empty |
| OnboardingSteps.StatusClasses | src/components/OnboardingSteps.tsx:90-94 | every venture status has a non-empty class string |
| OnboardingSteps.StatusClassesDistinct | src/components/OnboardingSteps.tsx:90-94 | the three statuses get three different class strings |
| OnboardingSteps.ViewOfVenture | src/components/OnboardingSteps.tsx:114-141 | the sector shows iff present, the badge has its status's classes, and the first three metrics show with their labels |

## Left out

- **Character model.** `toLowerCase` is modelled on ASCII letters only. Lengths count characters rather than UTF-16 code units. There is no Unicode normalisation.
- **Timers and rendering.** These are left out: the typewriter reveal and the `isTyping` gate; the 300 ms auto-advance (the advance happens at once); the 60-second polling of the status pill; scrolling (`scrollToBottom`, `scrollToArticles`); the country dropdown's open state and its country list; animation.
  - The cookie banner's one-second delay is the explicit step `TimerFires`.
- **Concurrency.** React's batching and the race between a timer and an async handler are not modelled; each handler is one atomic step.
  - The `isCheckingEmail` window of `advanceStage` is collapsed into one step, with the lookup's answer as an input.
  - A closure that saw stale answers is modelled by passing those answers explicitly (`TerminalSession.Session.Advance`).
- **Floating point.** The progress bars of both chat forms (`getProgress`), StatsCounter, and the canvas and cube animations are left out.
  - `Math.round` of a quotient is computed exactly on integers. It can differ from the floating-point result only at an exact half that floats cannot represent.
- **Dates.** Dates and durations are not modelled: the blog card's locale date, ISO timestamps (the clock is a string argument) and the endpoint's response times and `timestamp`.
- **Foreign libraries.** libphonenumber, the URL parser, the base64 reader and the Turnstile widget are parameters or inputs; the Turnstile site key is not modelled.
- **JSON key order.** The payload's key order and JSON encoding are not modelled.
  - `Object.entries` and `Object.keys` order is insertion order. Keys that look like integers (which JavaScript lists first) are not modelled.
- **Reply types.** Reply fields that are not strings are not modelled.
  - `StatusPill.Pill.Settle`: a JSON body with missing or null fields is not modelled. The pill would show `SYSTEMS_undefined%_ONLINE`.
  - The pill's declared `upCount`/`totalCount` are never filled by the endpoint, which sends `systemsUp`/`totalSystems`. They are never shown.
- **Numbers.** The reading time and the step number are modelled as natural numbers. A JavaScript `number` could be negative or fractional.
  - A file field's `maxSizeMB` is a natural number (`TerminalFields.FormField`). A fractional cap such as 2.5 MB is not modelled: neither its byte limit nor how `${maxSizeMB}` prints it in the size message. A negative cap is not modelled either.
  - A metric value that is a `number` is an integer (`Cards.MetricValue.Number`). Fractional metric values and their printing are not modelled.
- **Truthiness.**
  - A team member's image is modelled as present or absent.
  - A page hero's children are modelled as present or absent (a boolean).
- **History blocks.** The DigitalConsultingChat history blocks keep live inputs, and the model keeps that (`DigitalConsulting.EnterInEarlierBlockGoesBack`). Their rendering is not modelled.
- `DigitalConsulting.Consulting.AdvanceStage` requires that it is not called from 'security' or 'complete'. No handler does: the form leaves the security stage by submitting. `DigitalConsulting.AdvanceFrom` covers every stage, the 'complete' case included.
- `InsightsFilter.Insights.NextPage` and `InsightsFilter.Insights.GoToPage` require the pagination controls to be on screen, as they are only reachable through them.
- **Out of scope.** Markup-only components, the content schemas, site configuration and the type declaration files are left out. The types reappear only as datatypes.
