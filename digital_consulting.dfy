/** The hard-coded consulting intake (DigitalConsultingChat): a fixed sequence of
    stages, the condition under which each stage offers to move on, the website
    toggle, the budget choice, the phone formatting and the submission. */
module DigitalConsulting {
  import opened Wrappers
  import opened Text
  import opened TerminalFields
  import opened TerminalPayload

  datatype Stage = Identity | Contact | Phone | Context | Challenge | Qualification | Security | Complete

  /** The stages in the order the conversation visits them. */
  const Path: seq<Stage> := [Identity, Contact, Phone, Context, Challenge, Qualification, Security, Complete]

  /** The position of a stage in `Path`. */
  function Order(s: Stage): (r: nat)
    ensures r < |Path| && Path[r] == s
  {
    match s
    case Identity => 0
    case Contact => 1
    case Phone => 2
    case Context => 3
    case Challenge => 4
    case Qualification => 5
    case Security => 6
    case Complete => 7
  }

  /** The switch of `advanceStage`: the next stage of the path; 'complete' has no
      case and leaves the stage as it was. */
  function Successor(s: Stage): (r: Stage)
    ensures s != Complete ==> Order(r) == Order(s) + 1
    ensures s == Complete ==> r == Complete
  {
    match s
    case Identity => Contact
    case Contact => Phone
    case Phone => Context
    case Context => Challenge
    case Challenge => Qualification
    case Qualification => Security
    case Security => Complete
    case Complete => Complete
  }

  /** The answers of the form. `turnstileToken` is absent until the widget
      verifies. */
  datatype ConsultingForm = ConsultingForm(
    name: string,
    email: string,
    phone: string,
    company: string,
    website: string,
    hasWebsite: bool,
    challenge: string,
    budget: string,
    timeline: string,
    turnstileToken: Option<string>)

  /** The initial answers: every text empty and a website expected. */
  const InitialForm: ConsultingForm :=
    ConsultingForm("", "", "", "", "", true, "", "", "", None)

  /** The budget buttons of the qualification stage. */
  const BudgetOptions: seq<string> := ["< R50k", "R50k - R200k", "R200k+", "Not sure yet"]

  /** The condition under which a stage's input accepts Enter and its "ENTER" or
      "NEXT STEP" button is shown: a non-blank name, an e-mail matching the
      pattern, a non-blank phone answer, a non-blank company (the website is not
      looked at) and a challenge of at least 50 characters, untrimmed. The
      qualification stage moves on by its budget buttons, the security stage by
      submitting; neither has such a condition. */
  predicate Gate(s: Stage, f: ConsultingForm) {
    match s
    case Identity => !IsBlank(f.name)
    case Contact => MatchesEmailPattern(f.email)
    case Phone => !IsBlank(f.phone)
    case Context => !IsBlank(f.company)
    case Challenge => |f.challenge| >= 50
    case _ => false
  }

  /** The blocks with an input that reacts to Enter: the name, e-mail and phone
      inputs, and in the company block only the website input, which is drawn
      while a website is expected (the company input and the challenge textarea
      have no Enter handler). */
  predicate HasEnterKey(s: Stage, f: ConsultingForm) {
    s in {Identity, Contact, Phone} || (s == Context && f.hasWebsite)
  }

  /** With "NO WEBSITE?" chosen, Enter does nothing in the company block: only
      its NEXT STEP button moves on. */
  lemma CompanyBlockEnterNeedsWebsite(f: ConsultingForm)
    ensures HasEnterKey(Context, f) <==> f.hasWebsite
    ensures HasEnterKey(Context, ToggleWebsite(f)) <==> !HasEnterKey(Context, f)
  {
  }

  /** The company stage moves on whatever the website answer is. */
  lemma ContextGateIgnoresWebsite(f: ConsultingForm, website: string, hasWebsite: bool)
    ensures Gate(Context, f) <==> Gate(Context, f.(website := website, hasWebsite := hasWebsite))
    ensures Gate(Context, f) <==> !IsBlank(f.company)
  {
  }

  /** The free-text inputs. */
  datatype TextInput = NameInput | EmailInput | CompanyInput | WebsiteInput | ChallengeInput

  /** `{ ...formData, [input]: value }`: the typed answer replaces that input's
      answer; the phone, the website flag, the budget and the token stay. */
  function WithText(f: ConsultingForm, input: TextInput, value: string): (r: ConsultingForm)
    ensures r.phone == f.phone && r.hasWebsite == f.hasWebsite && r.budget == f.budget
    ensures r.timeline == f.timeline && r.turnstileToken == f.turnstileToken
    ensures input == NameInput ==> r.name == value && r == f.(name := value)
    ensures input == EmailInput ==> r.email == value && r == f.(email := value)
    ensures input == CompanyInput ==> r.company == value && r == f.(company := value)
    ensures input == WebsiteInput ==> r.website == value && r == f.(website := value)
    ensures input == ChallengeInput ==> r.challenge == value && r == f.(challenge := value)
  {
    match input
    case NameInput => f.(name := value)
    case EmailInput => f.(email := value)
    case CompanyInput => f.(company := value)
    case WebsiteInput => f.(website := value)
    case ChallengeInput => f.(challenge := value)
  }

  /** The block each free-text input is drawn in. */
  function BlockOf(input: TextInput): (s: Stage)
    ensures s in {Identity, Contact, Context, Challenge}
    ensures s == Context <==> input in {CompanyInput, WebsiteInput}
  {
    match input
    case NameInput => Identity
    case EmailInput => Contact
    case CompanyInput => Context
    case WebsiteInput => Context
    case ChallengeInput => Challenge
  }

  /** The answers the form can hold: without a website expected, no website is
      kept. The initial answers expect one, and the toggle empties it. */
  predicate WebsiteConsistent(f: ConsultingForm) {
    !f.hasWebsite ==> f.website == ""
  }

  /** The toggle and typing into a drawn input keep the answers consistent. */
  lemma WebsiteConsistentKept(f: ConsultingForm, input: TextInput, value: string)
    ensures WebsiteConsistent(InitialForm)
    ensures WebsiteConsistent(ToggleWebsite(f))
    ensures WebsiteConsistent(f) && (input == WebsiteInput ==> f.hasWebsite)
      ==> WebsiteConsistent(WithText(f, input, value))
  {
  }

  /** The website toggle: flips `hasWebsite` and always clears the website. */
  function ToggleWebsite(f: ConsultingForm): (r: ConsultingForm)
    ensures r.hasWebsite == !f.hasWebsite && r.website == ""
    ensures r == f.(hasWebsite := r.hasWebsite, website := "")
  {
    f.(hasWebsite := !f.hasWebsite, website := "")
  }

  /** Toggling twice restores the flag but not a website typed before. */
  lemma ToggleWebsiteTwice(f: ConsultingForm)
    ensures ToggleWebsite(ToggleWebsite(f)) == f.(website := "")
  {
  }

  // ---------------------------------------------------------------------------
  // The flow through the stages

  /** The stage shown as current and the completed stages, in the order they
      were left. */
  datatype Flow = Flow(stage: Stage, history: seq<Stage>)

  /** `advanceStage(from)`: `from` joins the history and its successor becomes
      current; from 'complete' the stage does not change. */
  function AdvanceFrom(f: Flow, from: Stage): (r: Flow)
    ensures r.history == f.history + [from]
    ensures r.stage == (if from == Complete then f.stage else Successor(from))
  {
    Flow(if from == Complete then f.stage else Successor(from), f.history + [from])
  }

  /** `k` advances, each from the stage current at the time. */
  function Walk(f: Flow, k: nat): Flow
    decreases k
  {
    if k == 0 then f else Walk(AdvanceFrom(f, f.stage), k - 1)
  }

  /** Starting at 'identity' and always advancing from the current stage, after
      `k` steps the `k`-th stage of the path is current and the history holds
      the ones before it, in order. */
  lemma {:induction false} WalkFollowsPath(k: nat)
    requires k < |Path|
    ensures Walk(Flow(Identity, []), k) == Flow(Path[k], Path[..k])
  {
    if k > 0 {
      WalkFollowsPath(k - 1);
      WalkStep(Flow(Identity, []), k - 1);
      assert Path[..k] == Path[..k - 1] + [Path[k - 1]];
      assert Successor(Path[k - 1]) == Path[k] by {
        assert Order(Path[k - 1]) == k - 1;
      }
    }
  }

  /** One more step of a walk advances from where the walk ended. */
  lemma {:induction false} WalkStep(f: Flow, k: nat)
    ensures Walk(f, k + 1) == AdvanceFrom(Walk(f, k), Walk(f, k).stage)
    decreases k
  {
    if k > 0 {
      WalkStep(AdvanceFrom(f, f.stage), k - 1);
    }
  }

  /** A block is on screen when its stage is current or completed. */
  predicate Shown(f: Flow, s: Stage) {
    s == f.stage || s in f.history
  }

  /** Completed blocks keep their inputs live: Enter in the name input after the
      flow reached the company stage records 'identity' again and makes
      'contact' current, behind stages already completed. */
  lemma EnterInEarlierBlockGoesBack(name: string)
    requires !IsBlank(name)
    ensures var f := Flow(Context, [Identity, Contact, Phone]);
      Shown(f, Identity) && Gate(Identity, InitialForm.(name := name))
      && AdvanceFrom(f, Identity) == Flow(Contact, [Identity, Contact, Phone, Identity])
  {
  }

  // ---------------------------------------------------------------------------
  // The submission

  /** The posted body: every answer (`hasWebsite` and the token included), the
      time and the fixed source. */
  datatype ConsultingPayload = ConsultingPayload(form: ConsultingForm, submittedAt: string, source: string)

  const ConsultingSource: string := "digital-consulting-terminal"

  /** How the POST ended: it threw, or the server answered with a status. */
  datatype Delivery = Unreachable | Answered(httpStatus: int)

  /** The component. */
  class Consulting {
    var stage: Stage
    var history: seq<Stage>
    var formData: ConsultingForm
    var isSubmitting: bool
    var submitStatus: SubmitStatus
    var errorMessage: string
    var country: string
    var phoneDisplay: string

    /** Between two events: 'security' and 'complete' are never left by
        `advanceStage`, the flow is complete exactly after a successful
        submission, and only then does the submission stay marked as under
        way. */
    ghost predicate Valid()
      reads this
    {
      Security !in history && Complete !in history
      && (stage == Complete <==> submitStatus == Success)
      && (isSubmitting <==> submitStatus == Success)
      && WebsiteConsistent(formData)
    }

    function CurrentFlow(): Flow
      reads this
    {
      Flow(stage, history)
    }

    /** The submit button: on the security stage once the widget gave a
        token. */
    predicate SubmitButtonShown()
      reads this
    {
      stage == Security && formData.turnstileToken.Some? && formData.turnstileToken.value != ""
    }

    constructor ()
      ensures Valid()
      ensures stage == Identity && history == [] && formData == InitialForm
      ensures submitStatus == Idle && errorMessage == "" && country == "ZA" && phoneDisplay == ""
    {
      stage := Identity;
      history := [];
      formData := InitialForm;
      isSubmitting := false;
      submitStatus := Idle;
      errorMessage := "";
      country := "ZA";
      phoneDisplay := "";
    }

    /** `advanceStage(from)`. */
    method AdvanceStage(from: Stage)
      requires Valid() && stage != Complete && from != Security && from != Complete
      modifies this`stage, this`history
      ensures Valid()
      ensures CurrentFlow() == AdvanceFrom(old(CurrentFlow()), from)
    {
      history := history + [from];
      match from {
        case Identity => stage := Contact;
        case Contact => stage := Phone;
        case Phone => stage := Context;
        case Context => stage := Challenge;
        case Challenge => stage := Qualification;
        case Qualification => stage := Security;
      }
    }

    /** Enter in the input of a block on screen: advances from that block's stage
        when its condition holds. */
    method PressEnter(at: Stage)
      requires Valid() && stage != Complete && HasEnterKey(at, formData) && Shown(CurrentFlow(), at)
      modifies this`stage, this`history
      ensures Valid()
      ensures Gate(at, formData) ==> CurrentFlow() == AdvanceFrom(old(CurrentFlow()), at)
      ensures !Gate(at, formData) ==> CurrentFlow() == old(CurrentFlow())
    {
      if Gate(at, formData) {
        AdvanceStage(at);
      }
    }

    /** The "ENTER" / "NEXT STEP" button, shown only on the current block while
        its condition holds. */
    method ClickNext()
      requires Valid()
      modifies this`stage, this`history
      ensures Valid()
      ensures Gate(old(stage), formData) ==> CurrentFlow() == AdvanceFrom(old(CurrentFlow()), old(stage))
      ensures !Gate(old(stage), formData) ==> CurrentFlow() == old(CurrentFlow())
    {
      if Gate(stage, formData) {
        AdvanceStage(stage);
      }
    }

    /** Typing in the name, e-mail, company, website or challenge input. The
        input's block is on screen (completed blocks keep their inputs), the
        success screen has not replaced the flow, and the website input is
        drawn only while a website is expected. */
    method TypeText(input: TextInput, value: string)
      requires Valid() && stage != Complete && Shown(CurrentFlow(), BlockOf(input))
      requires input == WebsiteInput ==> formData.hasWebsite
      modifies this`formData
      ensures Valid()
      ensures formData == WithText(old(formData), input, value)
    {
      formData := WithText(formData, input, value);
    }

    /** The "NO WEBSITE?" / "ACTIVATE WEBSITE LINK" button, drawn only in the
        live company block. */
    method ClickWebsiteToggle()
      requires Valid() && stage == Context
      modifies this`formData
      ensures Valid()
      ensures formData == ToggleWebsite(old(formData))
    {
      formData := formData.(hasWebsite := !formData.hasWebsite, website := "");
    }

    /** A budget button of the qualification block: the choice is stored as
        given and the flow advances from 'qualification'. */
    method ClickBudget(option: string)
      requires Valid() && stage != Complete && option in BudgetOptions && Shown(CurrentFlow(), Qualification)
      modifies this`formData, this`stage, this`history
      ensures Valid()
      ensures formData == old(formData).(budget := option)
      ensures CurrentFlow() == Flow(Security, old(history) + [Qualification])
    {
      formData := formData.(budget := option);
      AdvanceStage(Qualification);
    }

    /** The `onChange` of the phone input, in the phone block on screen. */
    method TypePhone(text: string)
      requires Valid() && stage != Complete && Shown(CurrentFlow(), Phone)
      modifies this`phoneDisplay, this`formData
      ensures Valid()
      ensures phoneDisplay == text && formData == old(formData).(phone := text)
    {
      phoneDisplay := text;
      formData := formData.(phone := text);
    }

    /** A country in the dropdown of the phone block. The dropdown opens only in
        the live block, so the current stage is 'phone'; the choice is what
        `BlurPhone` parses and formats against. */
    method SelectCountry(code: string)
      requires stage == Phone
      modifies this`country
      ensures country == code
    {
      country := code;
    }

    /** `handlePhoneBlur`, in the phone block on screen. */
    method BlurPhone(libs: Libraries)
      requires Valid() && stage != Complete && Shown(CurrentFlow(), Phone)
      modifies this`phoneDisplay, this`formData
      ensures Valid()
      ensures old(phoneDisplay) == "" ==> phoneDisplay == old(phoneDisplay) && formData == old(formData)
      ensures old(phoneDisplay) != "" ==>
        phoneDisplay == FormattedDisplay(libs, old(phoneDisplay), country) && phoneDisplay != ""
        && formData == old(formData).(phone := StoredPhone(libs, old(phoneDisplay), country))
    {
      if phoneDisplay == "" {
        return;
      }
      var typed := phoneDisplay;
      phoneDisplay := FormattedDisplay(libs, typed, country);
      formData := formData.(phone := StoredPhone(libs, typed, country));
    }

    /** The Turnstile widget's `onVerify`; the widget is drawn only in the live
        security block. */
    method VerifyTurnstile(token: string)
      requires Valid() && stage == Security
      modifies this`formData
      ensures Valid()
      ensures formData == old(formData).(turnstileToken := Some(token))
    {
      formData := formData.(turnstileToken := Some(token));
    }

    /** `handleSubmit`. Without a configured webhook URL nothing is posted and
        the submission succeeds; otherwise the payload is posted and only a 2xx
        answer succeeds. Success completes the flow and leaves the submission
        marked as under way; failure shows "TRANSMISSION_FAILED. RETRY?". */
    method Submit(webhookUrl: Option<string>, now: string, delivery: Delivery)
      returns (sent: Option<ConsultingPayload>)
      requires Valid() && submitStatus != Success
      modifies this`isSubmitting, this`errorMessage, this`submitStatus, this`stage
      ensures Valid()
      ensures webhookUrl.None? || webhookUrl.value == "" ==> sent.None?
      ensures webhookUrl.Some? && webhookUrl.value != "" ==>
        sent == Some(ConsultingPayload(formData, now, ConsultingSource))
      ensures var succeeded := webhookUrl.None? || webhookUrl.value == ""
                               || (delivery.Answered? && ResponseOk(delivery.httpStatus));
        (succeeded ==> submitStatus == Success && stage == Complete && isSubmitting && errorMessage == "")
        && (!succeeded ==> submitStatus == Failure && stage == old(stage) && !isSubmitting
                           && errorMessage == TransmissionFailed)
    {
      isSubmitting := true;
      errorMessage := "";
      var payload := ConsultingPayload(formData, now, ConsultingSource);
      sent := None;
      var ok := true;
      if webhookUrl.Some? && webhookUrl.value != "" {
        sent := Some(payload);
        ok := delivery.Answered? && ResponseOk(delivery.httpStatus);
      }
      if ok {
        submitStatus := Success;
        stage := Complete;
      } else {
        submitStatus := Failure;
        errorMessage := TransmissionFailed;
        isSubmitting := false;
      }
    }

    /** The "INITIATE TRANSMISSION" button, while it is shown. */
    method ClickSubmit(webhookUrl: Option<string>, now: string, delivery: Delivery)
      returns (sent: Option<ConsultingPayload>)
      requires Valid()
      modifies this`isSubmitting, this`errorMessage, this`submitStatus, this`stage
      ensures Valid()
      ensures !old(SubmitButtonShown()) ==> sent.None? && stage == old(stage) && submitStatus == old(submitStatus)
      ensures old(SubmitButtonShown()) && sent.Some? ==> sent.value.form.turnstileToken.Some?
      ensures sent.Some? && !sent.value.form.hasWebsite ==> sent.value.form.website == ""
      ensures old(SubmitButtonShown()) ==>
        var succeeded := webhookUrl.None? || webhookUrl.value == ""
                         || (delivery.Answered? && ResponseOk(delivery.httpStatus));
        (webhookUrl.Some? && webhookUrl.value != "" <==> sent.Some?)
        && (succeeded ==> submitStatus == Success && stage == Complete && errorMessage == "")
        && (!succeeded ==> submitStatus == Failure && stage == Security && errorMessage == TransmissionFailed)
    {
      sent := None;
      if SubmitButtonShown() {
        sent := Submit(webhookUrl, now, delivery);
      }
    }
  }
}
