/**
 * The static site's contact form: per-field validation with error display,
 * a message character counter capped at 500, and a submit gate that runs every
 * validator and, when all pass, simulates sending and then resets the form.
 *
 * The page's DOM state is held by the class `ContactFormPage`: the control
 * values, each field's error display, the counter, the submit button, the
 * success notice, and the two timers as counts of callbacks still to fire.
 * The field rules are pure predicates over the (trimmed) text; each
 * `ValidateX` method decides with them and updates only its own field's error
 * display.
 */
module ContactForm {
  import opened Text
  import opened EmailPattern

  const MinNameLength := 3
  const MinSubjectLength := 5
  const MinMessageLength := 10
  /** The longest message accepted, and the counter's cap. */
  const MaxMessageLength := 500

  const NameRequired := "El nombre es requerido"
  const NameTooShort := "El nombre debe tener al menos 3 caracteres"
  const EmailRequired := "El email es requerido"
  const EmailInvalid := "Por favor, introduce un email válido"
  const SubjectRequired := "El asunto es requerido"
  const SubjectTooShort := "El asunto debe tener al menos 5 caracteres"
  const MessageRequired := "El mensaje es requerido"
  const MessageTooShort := "El mensaje debe tener al menos 10 caracteres"
  const MessageTooLong := "El mensaje no puede exceder 500 caracteres"
  const TermsRequired := "Debes aceptar los términos"

  const SendingLabel := "Enviando..."
  /** The button's text once its label and arrow icon are restored. */
  const SubmitLabel := "Enviar Mensaje→"

  /** The validated fields; each has an error element. The phone field is never validated. */
  datatype Field = Name | Email | Subject | Message | Terms

  /** The validated controls that the reset clears the `error` class from (`.form-input, .form-textarea`). */
  const TextControls: seq<Field> := [Name, Email, Subject, Message]

  /** The error elements (`.form-error`) that the reset hides. */
  const ErrorElements: seq<Field> := [Name, Email, Subject, Message, Terms]

  /** The values of the form's controls. */
  datatype Values = Values(
    name: string, email: string, subject: string, phone: string, message: string,
    termsAccepted: bool)

  /** The values after `form.reset()`. */
  const Blank := Values("", "", "", "", "", false)

  /** A validator's decision: accepted, or rejected with the message to show. */
  datatype Verdict = Accepted | Rejected(message: string)

  /**
   * One field's error display: whether its control carries the `error` class,
   * and the text and `show` class of its error element.
   */
  datatype ErrorView = ErrorView(marked: bool, text: string, shown: bool)

  /** The display after `clearError`, and before any validation. */
  const Hidden := ErrorView(false, "", false)

  /** The error display of every validated field. */
  datatype FieldErrors = FieldErrors(
    name: ErrorView, email: ErrorView, subject: ErrorView, message: ErrorView, terms: ErrorView)
  {
    function Get(f: Field): ErrorView
    {
      match f
      case Name => name
      case Email => email
      case Subject => subject
      case Message => message
      case Terms => terms
    }

    /** The displays with field `f`'s replaced by `e`. */
    function Set(f: Field, e: ErrorView): FieldErrors
    {
      match f
      case Name => this.(name := e)
      case Email => this.(email := e)
      case Subject => this.(subject := e)
      case Message => this.(message := e)
      case Terms => this.(terms := e)
    }
  }

  /** The display of every field when nothing has been validated yet. */
  const NoErrors := FieldErrors(Hidden, Hidden, Hidden, Hidden, Hidden)

  // The field rules.

  predicate NameValid(raw: string)
  {
    |Trim(raw)| >= MinNameLength
  }

  ghost predicate EmailValid(raw: string)
  {
    MatchesEmailRegex(Trim(raw))
  }

  predicate SubjectValid(raw: string)
  {
    |Trim(raw)| >= MinSubjectLength
  }

  predicate MessageValid(raw: string)
  {
    MinMessageLength <= |Trim(raw)| <= MaxMessageLength
  }

  ghost predicate AllValid(v: Values)
  {
    NameValid(v.name) && EmailValid(v.email) && SubjectValid(v.subject)
    && MessageValid(v.message) && v.termsAccepted
  }

  // The validators' decisions, in the order their branches are tried.

  function CheckName(raw: string): (v: Verdict)
    ensures v.Accepted? <==> NameValid(raw)
    ensures v.Rejected? ==> v.message == if Trim(raw) == [] then NameRequired else NameTooShort
  {
    var name := Trim(raw);
    if name == [] then Rejected(NameRequired)
    else if |name| < MinNameLength then Rejected(NameTooShort)
    else Accepted
  }

  function CheckEmail(raw: string): (v: Verdict)
    ensures v.Accepted? <==> IsEmailShape(Trim(raw))
    ensures v.Rejected? ==> v.message == if Trim(raw) == [] then EmailRequired else EmailInvalid
  {
    var email := Trim(raw);
    if email == [] then Rejected(EmailRequired)
    else if !IsEmailShape(email) then Rejected(EmailInvalid)
    else Accepted
  }

  function CheckSubject(raw: string): (v: Verdict)
    ensures v.Accepted? <==> SubjectValid(raw)
    ensures v.Rejected? ==> v.message == if Trim(raw) == [] then SubjectRequired else SubjectTooShort
  {
    var subject := Trim(raw);
    if subject == [] then Rejected(SubjectRequired)
    else if |subject| < MinSubjectLength then Rejected(SubjectTooShort)
    else Accepted
  }

  function CheckMessage(raw: string): (v: Verdict)
    ensures v.Accepted? <==> MessageValid(raw)
    ensures v.Rejected? ==> (v.message ==
      if Trim(raw) == [] then MessageRequired
      else if |Trim(raw)| < MinMessageLength then MessageTooShort
      else MessageTooLong)
  {
    var message := Trim(raw);
    if message == [] then Rejected(MessageRequired)
    else if |message| < MinMessageLength then Rejected(MessageTooShort)
    else if |message| > MaxMessageLength then Rejected(MessageTooLong)
    else Accepted
  }

  function CheckTerms(checked: bool): (v: Verdict)
    ensures v.Accepted? <==> checked
    ensures v.Rejected? ==> v.message == TermsRequired
  {
    if !checked then Rejected(TermsRequired) else Accepted
  }

  /** The e-mail validator accepts exactly the values whose trimmed text matches the pattern. */
  lemma CheckEmailIsRegex(raw: string)
    ensures CheckEmail(raw).Accepted? <==> EmailValid(raw)
  {
    ShapeIffRegex(Trim(raw));
  }

  /** The decision for field `f` on the values `v`. */
  function Check(f: Field, v: Values): Verdict
  {
    match f
    case Name => CheckName(v.name)
    case Email => CheckEmail(v.email)
    case Subject => CheckSubject(v.subject)
    case Message => CheckMessage(v.message)
    case Terms => CheckTerms(v.termsAccepted)
  }

  /** The display `showError` (on a rejection) or `clearError` (on acceptance) leaves. */
  function View(verdict: Verdict): ErrorView
  {
    match verdict
    case Accepted => Hidden
    case Rejected(message) => ErrorView(true, message, true)
  }

  /** Every field's display after every validator has run on `v`. */
  function ErrorsFor(v: Values): FieldErrors
  {
    FieldErrors(
      View(CheckName(v.name)), View(CheckEmail(v.email)), View(CheckSubject(v.subject)),
      View(CheckMessage(v.message)), View(CheckTerms(v.termsAccepted)))
  }

  /** Setting each field's display to its verdict's, one field after another, gives `ErrorsFor(v)` whatever was shown before. */
  lemma ValidatingEveryField(e: FieldErrors, v: Values)
    ensures e.Set(Name, View(CheckName(v.name))).Set(Email, View(CheckEmail(v.email)))
             .Set(Subject, View(CheckSubject(v.subject))).Set(Message, View(CheckMessage(v.message)))
             .Set(Terms, View(CheckTerms(v.termsAccepted)))
          == ErrorsFor(v)
  {
  }

  /** The submit gate: the five rules hold exactly when every validator accepts. */
  lemma SubmitGate(v: Values)
    ensures AllValid(v) <==> forall f: Field :: Check(f, v).Accepted?
  {
    CheckEmailIsRegex(v.email);
    if AllValid(v) {
      forall f: Field ensures Check(f, v).Accepted? {
        match f
        case Name =>
        case Email =>
        case Subject =>
        case Message =>
        case Terms =>
      }
    }
    if forall f: Field :: Check(f, v).Accepted? {
      assert Check(Name, v).Accepted? && Check(Email, v).Accepted? && Check(Subject, v).Accepted?;
      assert Check(Message, v).Accepted? && Check(Terms, v).Accepted?;
    }
  }

  /**
   * After all validators have run, a field shows its error exactly when it was
   * rejected, and a shown error always has a message; an accepted field is fully cleared.
   */
  lemma ErrorsShowRejections(v: Values, f: Field)
    ensures ErrorsFor(v).Get(f).shown <==> Check(f, v).Rejected?
    ensures ErrorsFor(v).Get(f).marked == ErrorsFor(v).Get(f).shown
    ensures ErrorsFor(v).Get(f).shown ==> ErrorsFor(v).Get(f).text != ""
    ensures !ErrorsFor(v).Get(f).shown ==> ErrorsFor(v).Get(f) == Hidden
  {
  }

  /** When every rule holds, the validators leave every field's display cleared. */
  lemma AcceptedValuesShowNoErrors(v: Values)
    requires AllValid(v)
    ensures ErrorsFor(v) == NoErrors
  {
    CheckEmailIsRegex(v.email);
  }

  /** Submitting with only the terms unchecked shows exactly one error, the terms error. */
  lemma OnlyTermsMissing(v: Values)
    requires NameValid(v.name) && EmailValid(v.email) && SubjectValid(v.subject)
    requires MessageValid(v.message) && !v.termsAccepted
    ensures !AllValid(v)
    ensures forall f: Field :: (ErrorsFor(v).Get(f).shown <==> f == Terms)
    ensures ErrorsFor(v).Get(Terms).text == TermsRequired
  {
    CheckEmailIsRegex(v.email);
    forall f: Field ensures ErrorsFor(v).Get(f).shown <==> f == Terms {
      match f
      case Name =>
      case Email =>
      case Subject =>
      case Message =>
      case Terms =>
    }
  }

  /** The message value after the counter's cap: its first 500 characters. */
  function Capped(s: string): (r: string)
    ensures |r| <= MaxMessageLength && |r| <= |s| && r == s[..|r|]
    ensures |r| == |s| || |r| == MaxMessageLength
  {
    if |s| > MaxMessageLength then s[..MaxMessageLength] else s
  }

  /** Capping keeps a message of at most 500 characters, and capping twice is capping once. */
  lemma CappedFacts(s: string)
    ensures |s| <= MaxMessageLength <==> Capped(s) == s
    ensures Capped(Capped(s)) == Capped(s)
  {
  }

  /** A capped message can never be rejected as too long. */
  lemma CappedNeverTooLong(s: string)
    ensures CheckMessage(Capped(s)) != Rejected(MessageTooLong)
  {
  }

  class ContactFormPage {
    var values: Values
    var errors: FieldErrors
    /** The number the character counter shows. */
    var charCount: int
    var submitDisabled: bool
    var submitLabel: string
    var successVisible: bool
    /** Simulated sends whose 1500 ms timer has not fired yet. */
    var pendingSends: nat
    /** Success notices whose 5000 ms hiding timer has not fired yet. */
    var pendingHides: nat

    /**
     * The counter never passes the cap, and the button is disabled, with the
     * sending label, exactly while the one simulated send is pending.
     */
    ghost predicate Valid()
      reads this
    {
      && 0 <= charCount <= MaxMessageLength
      && pendingSends <= 1
      && (submitDisabled <==> pendingSends == 1)
      && submitLabel == (if submitDisabled then SendingLabel else SubmitLabel)
    }

    constructor ()
      ensures Valid()
      ensures values == Blank && errors == NoErrors && charCount == 0
      ensures !submitDisabled && submitLabel == SubmitLabel && !successVisible
      ensures pendingSends == 0 && pendingHides == 0
    {
      values := Blank;
      errors := NoErrors;
      charCount := 0;
      submitDisabled := false;
      submitLabel := SubmitLabel;
      successVisible := false;
      pendingSends := 0;
      pendingHides := 0;
    }

    method ShowError(f: Field, message: string)
      modifies this`errors
      ensures errors == old(errors).Set(f, ErrorView(true, message, true))
    {
      errors := errors.Set(f, ErrorView(true, message, true));
    }

    method ClearError(f: Field)
      modifies this`errors
      ensures errors == old(errors).Set(f, Hidden)
    {
      errors := errors.Set(f, Hidden);
    }

    method ValidateName() returns (ok: bool)
      requires Valid()
      modifies this`errors
      ensures Valid()
      ensures ok == NameValid(values.name)
      ensures errors == old(errors).Set(Name, View(CheckName(values.name)))
    {
      var name := Trim(values.name);
      if name == [] {
        ShowError(Name, NameRequired);
        ok := false;
      } else if |name| < MinNameLength {
        ShowError(Name, NameTooShort);
        ok := false;
      } else {
        ClearError(Name);
        ok := true;
      }
    }

    method ValidateEmail() returns (ok: bool)
      requires Valid()
      modifies this`errors
      ensures Valid()
      ensures ok == EmailValid(values.email)
      ensures errors == old(errors).Set(Email, View(CheckEmail(values.email)))
    {
      var email := Trim(values.email);
      ShapeIffRegex(email);
      if email == [] {
        ShowError(Email, EmailRequired);
        ok := false;
      } else if !IsEmailShape(email) {
        ShowError(Email, EmailInvalid);
        ok := false;
      } else {
        ClearError(Email);
        ok := true;
      }
    }

    method ValidateSubject() returns (ok: bool)
      requires Valid()
      modifies this`errors
      ensures Valid()
      ensures ok == SubjectValid(values.subject)
      ensures errors == old(errors).Set(Subject, View(CheckSubject(values.subject)))
    {
      var subject := Trim(values.subject);
      if subject == [] {
        ShowError(Subject, SubjectRequired);
        ok := false;
      } else if |subject| < MinSubjectLength {
        ShowError(Subject, SubjectTooShort);
        ok := false;
      } else {
        ClearError(Subject);
        ok := true;
      }
    }

    method ValidateMessage() returns (ok: bool)
      requires Valid()
      modifies this`errors
      ensures Valid()
      ensures ok == MessageValid(values.message)
      ensures errors == old(errors).Set(Message, View(CheckMessage(values.message)))
    {
      var message := Trim(values.message);
      if message == [] {
        ShowError(Message, MessageRequired);
        ok := false;
      } else if |message| < MinMessageLength {
        ShowError(Message, MessageTooShort);
        ok := false;
      } else if |message| > MaxMessageLength {
        ShowError(Message, MessageTooLong);
        ok := false;
      } else {
        ClearError(Message);
        ok := true;
      }
    }

    method ValidateTerms() returns (ok: bool)
      requires Valid()
      modifies this`errors
      ensures Valid()
      ensures ok == values.termsAccepted
      ensures errors == old(errors).Set(Terms, View(CheckTerms(values.termsAccepted)))
    {
      if !values.termsAccepted {
        ShowError(Terms, TermsRequired);
        ok := false;
      } else {
        ClearError(Terms);
        ok := true;
      }
    }

    /** The `input` handler of the message: show the length, and cut the value to 500 characters. */
    method UpdateCharCount()
      requires Valid()
      modifies this`values, this`charCount
      ensures Valid()
      ensures charCount == if |old(values.message)| < MaxMessageLength then |old(values.message)| else MaxMessageLength
      ensures values == old(values).(message := Capped(old(values.message)))
    {
      var currentLength := |values.message|;
      charCount := if currentLength < MaxMessageLength then currentLength else MaxMessageLength;
      if currentLength > MaxMessageLength {
        values := values.(message := values.message[..MaxMessageLength]);
        charCount := MaxMessageLength;
      }
    }

    /**
     * The `submit` handler: every validator runs, none is skipped after an
     * earlier failure, and the send starts only when all five accept. A
     * disabled submit button lets no submit through, by click or by Enter.
     */
    method HandleSubmit() returns (submitted: bool)
      requires Valid() && !submitDisabled
      modifies this
      ensures Valid()
      ensures submitted == AllValid(values)
      ensures values == old(values) && errors == ErrorsFor(values)
      ensures charCount == old(charCount)
      ensures successVisible == old(successVisible) && pendingHides == old(pendingHides)
      ensures if submitted
        then submitDisabled && submitLabel == SendingLabel && pendingSends == old(pendingSends) + 1
        else submitDisabled == old(submitDisabled) && submitLabel == old(submitLabel)
             && pendingSends == old(pendingSends)
    {
      submitted := ValidateAll();
      if submitted {
        SubmitForm();
      }
    }

    /** The five validators, each run in turn whatever the earlier ones decided. */
    method ValidateAll() returns (ok: bool)
      requires Valid()
      modifies this`errors
      ensures Valid()
      ensures ok == AllValid(values)
      ensures errors == ErrorsFor(values)
    {
      ValidatingEveryField(errors, values);
      var nameOk := ValidateName();
      var emailOk := ValidateEmail();
      var subjectOk := ValidateSubject();
      var messageOk := ValidateMessage();
      var termsOk := ValidateTerms();
      ok := nameOk && emailOk && subjectOk && messageOk && termsOk;
    }

    /** Disable the button and start the simulated send's timer. */
    method SubmitForm()
      modifies this`submitDisabled, this`submitLabel, this`pendingSends
      ensures submitDisabled && submitLabel == SendingLabel
      ensures pendingSends == old(pendingSends) + 1
    {
      submitDisabled := true;
      submitLabel := SendingLabel;
      pendingSends := pendingSends + 1;
    }

    /**
     * The send timer fires: the values are collected (and returned as `sent`),
     * the success notice shows, the form is reset, the counter reads 0, the
     * `error` class leaves every text control, every error element is hidden,
     * and the button is enabled again.
     */
    method CompleteSend() returns (sent: Values)
      requires Valid() && pendingSends > 0
      modifies this
      ensures Valid()
      ensures sent == old(values)
      ensures values == Blank && charCount == 0
      ensures successVisible && pendingHides == old(pendingHides) + 1
      ensures !submitDisabled && submitLabel == SubmitLabel && pendingSends == old(pendingSends) - 1
      ensures forall f: Field :: !errors.Get(f).shown && errors.Get(f).text == old(errors).Get(f).text
      ensures forall f :: f in TextControls ==> !errors.Get(f).marked
      ensures errors.Get(Terms).marked == old(errors).Get(Terms).marked
    {
      sent := values;
      successVisible := true;
      pendingHides := pendingHides + 1;
      values := Blank;
      charCount := 0;

      UnmarkTextControls();
      HideErrorElements();
      submitDisabled := false;
      submitLabel := SubmitLabel;
      pendingSends := pendingSends - 1;
    }

    /** `.form-input, .form-textarea` loses the `error` class, one control at a time. */
    method UnmarkTextControls()
      modifies this`errors
      ensures forall f: Field ::
        errors.Get(f) == (if f in TextControls then old(errors).Get(f).(marked := false) else old(errors).Get(f))
    {
      var i := 0;
      while i < |TextControls|
        invariant 0 <= i <= |TextControls|
        invariant forall f: Field ::
          errors.Get(f) == (if f in TextControls[..i] then old(errors).Get(f).(marked := false) else old(errors).Get(f))
      {
        var f := TextControls[i];
        errors := errors.Set(f, errors.Get(f).(marked := false));
        i := i + 1;
      }
      assert TextControls[..i] == TextControls;
    }

    /** Every `.form-error` element loses the `show` class, one at a time. */
    method HideErrorElements()
      modifies this`errors
      ensures forall f: Field ::
        errors.Get(f) == (if f in ErrorElements then old(errors).Get(f).(shown := false) else old(errors).Get(f))
    {
      var i := 0;
      while i < |ErrorElements|
        invariant 0 <= i <= |ErrorElements|
        invariant forall f: Field ::
          errors.Get(f) == (if f in ErrorElements[..i] then old(errors).Get(f).(shown := false) else old(errors).Get(f))
      {
        var f := ErrorElements[i];
        errors := errors.Set(f, errors.Get(f).(shown := false));
        i := i + 1;
      }
      assert ErrorElements[..i] == ErrorElements;
    }

    /** The hiding timer fires: the success notice disappears. */
    method HideSuccess()
      requires pendingHides > 0
      modifies this`successVisible, this`pendingHides
      ensures !successVisible && pendingHides == old(pendingHides) - 1
    {
      successVisible := false;
      pendingHides := pendingHides - 1;
    }
  }

  /**
   * A successful submit followed by the send timer: every field's display is
   * fully cleared, whatever was shown before the submit.
   */
  method SubmitThenComplete(page: ContactFormPage) returns (submitted: bool)
    requires page.Valid() && !page.submitDisabled
    modifies page
    ensures page.Valid()
    ensures submitted == AllValid(old(page.values))
    ensures submitted ==> page.values == Blank && page.charCount == 0 && page.errors == NoErrors
    ensures submitted ==> !page.submitDisabled && page.successVisible
  {
    submitted := page.HandleSubmit();
    if submitted {
      AcceptedValuesShowNoErrors(page.values);
      var sent := page.CompleteSend();
      assert page.errors.Get(Name) == Hidden && page.errors.Get(Email) == Hidden;
      assert page.errors.Get(Subject) == Hidden && page.errors.Get(Message) == Hidden;
      assert page.errors.Get(Terms) == Hidden;
    }
  }
}
