/**
 * The contact page's form: per-field validation with ordered error messages,
 * the change / blur handlers and the submit path (validate every required
 * field, then send and reset, or record the errors).
 *
 * The mail service is a parameter: `HandleSubmit` is told whether the send
 * succeeded, and returns the payload it would have sent.
 */
module Contact {
  import opened Wrappers
  import opened Text

  const NameRequired := "Name is required"
  const NameTooShort := "Name must be at least 2 characters"
  const EmailRequired := "Email is required"
  const EmailInvalid := "Please enter a valid email address"
  const ProjectTypeRequired := "Please select a project type"
  const MessageRequired := "Message is required"
  const MessageTooShort := "Message must be at least 10 characters"

  const ContactEmail := "contact@aliyoussef.tech"

  /** The form's inputs, named by their `name` attribute. */
  datatype Field = Name | Email | Company | ProjectType | Budget | Message {
    function Key(): string {
      match this
      case Name => "name"
      case Email => "email"
      case Company => "company"
      case ProjectType => "projectType"
      case Budget => "budget"
      case Message => "message"
    }
  }

  /** The form's fields, in the order `Object.keys` visits them. */
  const Fields: seq<Field> := [Name, Email, Company, ProjectType, Budget, Message]

  /** The fields the submit loop validates (it skips company and budget). */
  predicate Required(field: Field) {
    field != Company && field != Budget
  }

  const EmptyForm: map<Field, string> :=
    map[Name := "", Email := "", Company := "", ProjectType := "", Budget := "", Message := ""]

  /** A segment of the email pattern: no whitespace and no `@`. */
  predicate PlainSegment(s: string) {
    forall i :: 0 <= i < |s| ==> !IsSpace(s[i]) && s[i] != '@'
  }

  /**
   * `^[^\s@]+@[^\s@]+\.[^\s@]+$`: a non-empty local part, one `@`, a
   * non-empty label, a dot, and a non-empty tail, none holding whitespace or `@`.
   */
  predicate EmailPattern(s: string) {
    exists at: nat, dot: nat | dot < |s| ::
      && 0 < at && at + 1 < dot && dot + 1 < |s|
      && s[at] == '@' && s[dot] == '.'
      && PlainSegment(s[..at]) && PlainSegment(s[at + 1..dot]) && PlainSegment(s[dot + 1..])
  }

  lemma PlainSlice(s: string, lo: nat, hi: nat)
    requires lo <= hi <= |s|
    requires forall j :: lo <= j < hi ==> !IsSpace(s[j]) && s[j] != '@'
    ensures PlainSegment(s[lo..hi])
  {
    var t := s[lo..hi];
    forall i | 0 <= i < |t| ensures !IsSpace(t[i]) && t[i] != '@' {
      assert t[i] == s[lo + i];
    }
  }

  /** The pattern read as a description: no whitespace, exactly one `@`, not first, then a `.` with text on both sides. */
  predicate EmailShape(s: string) {
    && (forall i :: 0 <= i < |s| ==> !IsSpace(s[i]))
    && exists at: nat | 0 < at < |s| ::
         && s[at] == '@'
         && (forall j :: 0 <= j < |s| && s[j] == '@' ==> j == at)
         && exists dot: nat | at + 1 < dot < |s| - 1 :: s[dot] == '.'
  }

  lemma PatternHasShape(s: string)
    requires EmailPattern(s)
    ensures EmailShape(s)
  {
    var at: nat, dot: nat :| dot < |s| && 0 < at && at + 1 < dot && dot + 1 < |s|
      && s[at] == '@' && s[dot] == '.'
      && PlainSegment(s[..at]) && PlainSegment(s[at + 1..dot]) && PlainSegment(s[dot + 1..]);
    forall i | 0 <= i < |s| ensures !IsSpace(s[i]) && (s[i] == '@' ==> i == at) {
      if i < at {
        assert s[..at][i] == s[i];
      } else if at < i < dot {
        assert s[at + 1..dot][i - at - 1] == s[i];
      } else if dot < i {
        assert s[dot + 1..][i - dot - 1] == s[i];
      }
    }
  }

  lemma ShapeHasPattern(s: string)
    requires EmailShape(s)
    ensures EmailPattern(s)
  {
    var at: nat :| 0 < at < |s| && s[at] == '@'
      && (forall j :: 0 <= j < |s| && s[j] == '@' ==> j == at)
      && exists dot: nat | at + 1 < dot < |s| - 1 :: s[dot] == '.';
    var dot: nat :| at + 1 < dot < |s| - 1 && s[dot] == '.';
    PlainSlice(s, 0, at);
    PlainSlice(s, at + 1, dot);
    PlainSlice(s, dot + 1, |s|);
    assert s[..at] == s[0..at] && s[dot + 1..] == s[dot + 1..|s|];
  }

  /** The regular expression accepts exactly the strings of that shape. */
  lemma EmailPatternMeaning(s: string)
    ensures EmailPattern(s) <==> EmailShape(s)
  {
    if EmailPattern(s) {
      PatternHasShape(s);
    }
    if EmailShape(s) {
      ShapeHasPattern(s);
    }
  }

  /** `validateField`: the first failing check's message for the field, or null. */
  function ValidateField(field: Field, value: string): (r: Option<string>)
    ensures !Required(field) ==> r == None
    ensures r.Some? ==> Required(field) && r.value != ""
  {
    match field
    case Name =>
      if Trim(value) == "" then Some(NameRequired)
      else if |Trim(value)| < 2 then Some(NameTooShort)
      else None
    case Email =>
      if Trim(value) == "" then Some(EmailRequired)
      else if !EmailPattern(value) then Some(EmailInvalid)
      else None
    case ProjectType =>
      if value == "" then Some(ProjectTypeRequired) else None
    case Message =>
      if Trim(value) == "" then Some(MessageRequired)
      else if |Trim(value)| < 10 then Some(MessageTooShort)
      else None
    case Company => None
    case Budget => None
  }

  /** The verdicts on name, project type and message: each passes exactly when long enough after trimming, or chosen. */
  lemma ValidateFieldVerdicts(value: string)
    ensures ValidateField(Name, value) == None <==> |Trim(value)| >= 2
    ensures ValidateField(ProjectType, value) == None <==> value != ""
    ensures ValidateField(Message, value) == None <==> |Trim(value)| >= 10
  {
  }

  /** A value that is not blank but still fails gets the field's second, more specific message. */
  lemma ValidateFieldMessages(value: string)
    ensures !AllSpace(value) && |Trim(value)| < 2 ==> ValidateField(Name, value) == Some(NameTooShort)
    ensures !AllSpace(value) && !EmailPattern(value) ==> ValidateField(Email, value) == Some(EmailInvalid)
    ensures !AllSpace(value) && |Trim(value)| < 10 ==> ValidateField(Message, value) == Some(MessageTooShort)
    ensures value == "" ==> ValidateField(ProjectType, value) == Some(ProjectTypeRequired)
  {
  }

  /** An email passes exactly when it matches the pattern: the emptiness check never decides alone. */
  lemma EmailValidIffPattern(value: string)
    ensures ValidateField(Email, value) == None <==> EmailPattern(value)
  {
    if EmailPattern(value) {
      EmailPatternMeaning(value);
      assert !IsSpace(value[0]);
      assert !AllSpace(value);
    }
  }

  /** A blank value reports "required" before any length or shape message. */
  lemma BlankReportsRequired(value: string)
    requires AllSpace(value)
    ensures ValidateField(Name, value) == Some(NameRequired)
    ensures ValidateField(Email, value) == Some(EmailRequired)
    ensures ValidateField(Message, value) == Some(MessageRequired)
  {
  }

  /** A field validator: the message for a field's value, or none. */
  type Validator = (Field, string) -> Option<string>

  /** The errors the submit loop collects from the first `k` fields with validator `validate`. */
  function CollectErrors(validate: Validator, data: map<Field, string>, k: nat): (r: map<Field, string>)
    requires k <= |Fields|
    ensures forall field :: field in r ==> Required(field) && field in Fields[..k]
    ensures forall field :: field in r ==> validate(field, Get(data, field).GetOr("")) == Some(r[field])
  {
    if k == 0 then map[]
    else
      var errs := CollectErrors(validate, data, k - 1);
      var field := Fields[k - 1];
      if !Required(field) then errs
      else
        match validate(field, Get(data, field).GetOr(""))
        case Some(msg) => errs[field := msg]
        case None => errs
  }

  /** Where `field` stands in `Fields`. */
  function Position(field: Field): (r: nat)
    ensures r < |Fields| && Fields[r] == field
  {
    match field
    case Name => 0
    case Email => 1
    case Company => 2
    case ProjectType => 3
    case Budget => 4
    case Message => 5
  }

  /**
   * After `k` fields, `field` has an error exactly when it came up, is
   * required and fails its validator, and then with the validator's message.
   */
  lemma {:induction false} CollectErrorsExact(validate: Validator, data: map<Field, string>, k: nat, field: Field)
    requires k <= |Fields|
    ensures var errs := CollectErrors(validate, data, k);
      field in errs <==> Position(field) < k && Required(field) && validate(field, Get(data, field).GetOr("")).Some?
    ensures var errs := CollectErrors(validate, data, k);
      field in errs ==> Some(errs[field]) == validate(field, Get(data, field).GetOr(""))
  {
    if k > 0 {
      CollectErrorsExact(validate, data, k - 1, field);
    }
  }

  /** The submit loop: run `validate` on each field except company and budget, keeping the failures. */
  method ValidateAll(validate: Validator, data: map<Field, string>) returns (newErrors: map<Field, string>)
    ensures newErrors == CollectErrors(validate, data, |Fields|)
  {
    newErrors := map[];
    var k := 0;
    while k < |Fields|
      invariant 0 <= k <= |Fields|
      invariant newErrors == CollectErrors(validate, data, k)
    {
      var field := Fields[k];
      if Required(field) {
        var error := validate(field, Get(data, field).GetOr(""));
        if error.Some? {
          newErrors := newErrors[field := error.value];
        }
      }
      k := k + 1;
    }
  }

  /** The message the page sends through the mail service. */
  datatype Payload = Payload(
    fromName: string, fromEmail: string, company: string, projectType: string,
    budget: string, message: string, toEmail: string)

  function PayloadOf(data: map<Field, string>): (p: Payload)
    ensures p.fromName == Get(data, Name).GetOr("") && p.fromEmail == Get(data, Email).GetOr("")
    ensures p.projectType == Get(data, ProjectType).GetOr("") && p.message == Get(data, Message).GetOr("")
    ensures Get(data, Company).GetOr("") == "" ==> p.company == "Not provided"
    ensures Get(data, Company).GetOr("") != "" ==> p.company == data[Company]
    ensures Get(data, Budget).GetOr("") == "" ==> p.budget == "Not specified"
    ensures Get(data, Budget).GetOr("") != "" ==> p.budget == data[Budget]
    ensures p.company != "" && p.budget != ""
    ensures p.toEmail == ContactEmail
  {
    Payload(
      Get(data, Name).GetOr(""),
      Get(data, Email).GetOr(""),
      OrElse(Get(data, Company).GetOr(""), "Not provided"),
      Get(data, ProjectType).GetOr(""),
      OrElse(Get(data, Budget).GetOr(""), "Not specified"),
      Get(data, Message).GetOr(""),
      ContactEmail)
  }

  datatype SubmitOutcome = Rejected | Sent(payload: Payload) | SendFailed(payload: Payload)

  /** JavaScript truthiness of `errors[name]`: a set, non-empty message. */
  predicate HasError(errors: map<Field, Option<string>>, field: Field) {
    field in errors && errors[field].Some? && errors[field].value != ""
  }

  /** The form's state: field values, per-field errors (null entries allowed) and the two flags. */
  class ContactForm {
    var formData: map<Field, string>
    var errors: map<Field, Option<string>>
    var isSubmitting: bool
    var showSuccess: bool

    /** The form keeps an entry for each of the six inputs, and records errors only on required fields. */
    ghost predicate Valid()
      reads this
    {
      && formData.Keys == EmptyForm.Keys
      && forall field :: field in errors && errors[field].Some? ==> Required(field)
    }

    constructor()
      ensures Valid()
      ensures formData == EmptyForm && errors == map[] && !isSubmitting && !showSuccess
    {
      formData := EmptyForm;
      errors := map[];
      isSubmitting, showSuccess := false, false;
    }

    /** `handleChange` on input `field`: store the value; clear that field's error if one is shown. */
    method HandleChange(field: Field, value: string)
      requires Valid()
      modifies this
      ensures Valid()
      ensures formData == old(formData)[field := value]
      ensures errors == if HasError(old(errors), field) then old(errors)[field := None] else old(errors)
      ensures isSubmitting == old(isSubmitting) && showSuccess == old(showSuccess)
    {
      formData := formData[field := value];
      if HasError(errors, field) {
        errors := errors[field := None];
      }
    }

    /** `handleBlur` on input `field` holding `value`: record that field's validation result. */
    method HandleBlur(field: Field, value: string)
      requires Valid()
      modifies this
      ensures Valid()
      ensures errors == old(errors)[field := ValidateField(field, value)]
      ensures formData == old(formData)
      ensures isSubmitting == old(isSubmitting) && showSuccess == old(showSuccess)
    {
      errors := errors[field := ValidateField(field, value)];
    }

    /**
     * `handleSubmit`: reject with the collected errors, or send; a
     * successful send shows the success banner and resets every field.
     */
    method HandleSubmit(sendSucceeds: bool) returns (outcome: SubmitOutcome)
      requires Valid()
      modifies this
      ensures Valid()
      ensures var errs := CollectErrors(ValidateField, old(formData), |Fields|);
        if errs != map[] then
          && outcome == Rejected
          && errors == (map field | field in errs :: Some(errs[field]))
          && formData == old(formData) && isSubmitting == old(isSubmitting) && showSuccess == old(showSuccess)
        else
          && outcome == (if sendSucceeds then Sent(PayloadOf(old(formData))) else SendFailed(PayloadOf(old(formData))))
          && errors == old(errors) && !isSubmitting
          && formData == (if sendSucceeds then EmptyForm else old(formData))
          && showSuccess == (sendSucceeds || old(showSuccess))
    {
      var newErrors := ValidateAll(ValidateField, formData);
      if newErrors != map[] {
        forall field | field in newErrors ensures Required(field) {
          CollectErrorsExact(ValidateField, formData, |Fields|, field);
        }
        errors := map field | field in newErrors :: Some(newErrors[field]);
        return Rejected;
      }
      isSubmitting := true;
      var payload := PayloadOf(formData);
      if sendSucceeds {
        showSuccess := true;
        formData := EmptyForm;
        outcome := Sent(payload);
      } else {
        outcome := SendFailed(payload);
      }
      isSubmitting := false;
    }

    /** The 5-second timer after a successful send hides the banner. */
    method SuccessTimeout()
      modifies this`showSuccess
      ensures !showSuccess
    {
      showSuccess := false;
    }
  }

  /** A submit that goes on to send has every required field passing its validator. */
  lemma SentFormIsValid(data: map<Field, string>)
    requires CollectErrors(ValidateField, data, |Fields|) == map[]
    ensures forall field :: Required(field) ==> ValidateField(field, Get(data, field).GetOr("")) == None
  {
    forall field | Required(field)
      ensures ValidateField(field, Get(data, field).GetOr("")) == None
    {
      CollectErrorsExact(ValidateField, data, |Fields|, field);
    }
  }

  /** A rejected submit records a message exactly for the failing required fields. */
  lemma RejectedErrorsExact(data: map<Field, string>, field: Field)
    ensures var errs := CollectErrors(ValidateField, data, |Fields|);
      field in errs <==> Required(field) && ValidateField(field, Get(data, field).GetOr("")).Some?
  {
    CollectErrorsExact(ValidateField, data, |Fields|, field);
  }
}
