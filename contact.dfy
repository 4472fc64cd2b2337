/**
 * Field validation and submit state of the contact form in
 * `src/components/Contact.jsx`. The EmailJS request is an opaque outcome;
 * the typing-status timers and the 5-second reset of the success banner are
 * not modelled.
 */
module Contact {
  import opened Wrappers

  /** The four inputs of the form, by their `name` attribute. */
  datatype Field = Name | Email | Subject | Message

  /** `charLimits`, applied to the inputs as `maxLength`. */
  function CharLimit(f: Field): nat
  {
    match f
    case Name => 50
    case Email => 100
    case Subject => 100
    case Message => 500
  }

  datatype FormData = FormData(name: string, email: string, subject: string, message: string)
  {
    function Get(f: Field): string
    {
      match f
      case Name => name
      case Email => email
      case Subject => subject
      case Message => message
    }

    /** `{ ...prev, [f]: value }` */
    function With(f: Field, value: string): (r: FormData)
      ensures r.Get(f) == value
      ensures forall g :: g != f ==> r.Get(g) == Get(g)
    {
      match f
      case Name => this.(name := value)
      case Email => this.(email := value)
      case Subject => this.(subject := value)
      case Message => this.(message := value)
    }

    predicate WithinLimits()
    {
      forall f :: |Get(f)| <= CharLimit(f)
    }
  }

  const EmptyForm := FormData("", "", "", "")

  // ---------------------------------------------------------------- whitespace and trim

  /**
   * The characters JavaScript's `\s` matches and `String.prototype.trim`
   * removes: WhiteSpace and LineTerminator.
   */
  predicate IsJsWhitespace(c: char)
  {
    || c == '\t' || c == '\n' || c == '\U{000B}' || c == '\U{000C}' || c == '\r' || c == ' '
    || c == '\U{00A0}' || c == '\U{1680}' || ('\U{2000}' <= c <= '\U{200A}')
    || c == '\U{2028}' || c == '\U{2029}' || c == '\U{202F}' || c == '\U{205F}'
    || c == '\U{3000}' || c == '\U{FEFF}'
  }

  predicate IsBlank(s: string)
  {
    forall i :: 0 <= i < |s| ==> IsJsWhitespace(s[i])
  }

  function TrimStart(s: string): string
  {
    if s != [] && IsJsWhitespace(s[0]) then TrimStart(s[1..]) else s
  }

  function TrimEnd(s: string): string
  {
    if s != [] && IsJsWhitespace(s[|s| - 1]) then TrimEnd(s[..|s| - 1]) else s
  }

  /** `s.trim()` */
  function Trim(s: string): string
  {
    TrimEnd(TrimStart(s))
  }

  /** `!s.trim()` holds exactly for the empty and the whitespace-only strings. */
  lemma TrimEmptyIffBlank(s: string)
    ensures Trim(s) == [] <==> IsBlank(s)
  {
    StartBlank(s);
    EndBlank(TrimStart(s));
  }

  /** TrimStart keeps a suffix and drops only whitespace; it empties exactly a blank string. */
  lemma {:induction false} StartBlank(s: string)
    ensures IsBlank(TrimStart(s)) <==> IsBlank(s)
  {
    if s != [] && IsJsWhitespace(s[0]) {
      StartBlank(s[1..]);
      assert forall i :: 1 <= i < |s| ==> s[i] == s[1..][i - 1];
    }
  }

  /** TrimEnd empties exactly a blank string. */
  lemma {:induction false} EndBlank(s: string)
    ensures TrimEnd(s) == [] <==> IsBlank(s)
  {
    if s != [] && IsJsWhitespace(s[|s| - 1]) {
      EndBlank(s[..|s| - 1]);
      assert forall i :: 0 <= i < |s| - 1 ==> s[i] == s[..|s| - 1][i];
    }
  }

  // ---------------------------------------------------------------- the email pattern

  /** A character `[^\s@]` matches. */
  predicate IsPlain(c: char)
  {
    !IsJsWhitespace(c) && c != '@'
  }

  predicate AllPlain(s: string)
  {
    forall i :: 0 <= i < |s| ==> IsPlain(s[i])
  }

  /**
   * The language of `/^[^\s@]+@[^\s@]+\.[^\s@]+$/`: three non-empty runs of
   * plain characters, joined by an '@' and then a '.'.
   */
  ghost predicate MatchesEmailRegex(s: string)
  {
    exists i, j ::
      && 0 < i && i + 1 < j && j + 1 < |s|
      && s[i] == '@' && s[j] == '.'
      && AllPlain(s[..i]) && AllPlain(s[i + 1..j]) && AllPlain(s[j + 1..])
  }

  /** Index of the first '@' in `s`, or `|s|` when there is none. */
  function FirstAt(s: string): (k: nat)
    ensures k <= |s|
    ensures k < |s| ==> s[k] == '@'
    ensures forall i :: 0 <= i < k ==> s[i] != '@'
  {
    if s == [] then 0
    else if s[0] == '@' then 0
    else 1 + FirstAt(s[1..])
  }

  predicate HasInnerDot(d: string)
  {
    exists k :: 0 < k < |d| - 1 && d[k] == '.'
  }

  /**
   * The pattern test: a non-empty local part before the first '@', and after
   * it a domain with neither whitespace nor '@' and a '.' that is neither its
   * first nor its last character.
   */
  predicate IsValidEmail(s: string)
  {
    var at := FirstAt(s);
    && 0 < at < |s|
    && AllPlain(s[..at])
    && AllPlain(s[at + 1..])
    && HasInnerDot(s[at + 1..])
  }

  /** The pattern test accepts exactly the language of the regular expression. */
  lemma EmailTestMatchesRegex(s: string)
    ensures IsValidEmail(s) <==> MatchesEmailRegex(s)
  {
    if IsValidEmail(s) {
      AcceptedMatchesRegex(s);
    }
    if MatchesEmailRegex(s) {
      var i, j :| && 0 < i && i + 1 < j && j + 1 < |s|
        && s[i] == '@' && s[j] == '.'
        && AllPlain(s[..i]) && AllPlain(s[i + 1..j]) && AllPlain(s[j + 1..]);
      RegexMatchAccepted(s, i, j);
    }
  }

  lemma AcceptedMatchesRegex(s: string)
    requires IsValidEmail(s)
    ensures MatchesEmailRegex(s)
  {
    var at := FirstAt(s);
    var d := s[at + 1..];
    var k :| 0 < k < |d| - 1 && d[k] == '.';
    var j := at + 1 + k;
    assert s[at + 1..j] == d[..k];
    assert s[j + 1..] == d[k + 1..];
    AllPlainSlice(d, 0, k);
    AllPlainSlice(d, k + 1, |d|);
    assert d[..k] == d[0..k] && d[k + 1..] == d[k + 1..|d|];
  }

  lemma AllPlainSlice(s: string, lo: nat, hi: nat)
    requires AllPlain(s) && lo <= hi <= |s|
    ensures AllPlain(s[lo..hi])
  {
    forall k | 0 <= k < hi - lo ensures IsPlain(s[lo..hi][k]) {
      assert s[lo..hi][k] == s[lo + k];
    }
  }

  lemma RegexMatchAccepted(s: string, i: nat, j: nat)
    requires 0 < i && i + 1 < j && j + 1 < |s|
    requires s[i] == '@' && s[j] == '.'
    requires AllPlain(s[..i]) && AllPlain(s[i + 1..j]) && AllPlain(s[j + 1..])
    ensures IsValidEmail(s)
  {
    assert forall k :: 0 <= k < i ==> s[..i][k] == s[k];
    assert forall k :: 0 <= k < i ==> s[k] != '@';
    var at := FirstAt(s);
    assert at == i;
    var d := s[i + 1..];
    assert d[j - i - 1] == '.';
    forall k | 0 <= k < |d| ensures IsPlain(d[k]) {
      if k < j - i - 1 {
        assert d[k] == s[i + 1..j][k];
      } else if k > j - i - 1 {
        assert d[k] == s[j + 1..][k - (j - i)];
      }
    }
  }

  /** An accepted address has no whitespace and exactly one '@', with text before it. */
  lemma ValidEmailShape(s: string)
    requires IsValidEmail(s)
    ensures forall i :: 0 <= i < |s| ==> !IsJsWhitespace(s[i])
    ensures exists a :: 0 < a < |s| && s[a] == '@' && forall i :: 0 <= i < |s| && s[i] == '@' ==> i == a
  {
    var at := FirstAt(s);
    forall i | 0 <= i < |s| ensures !IsJsWhitespace(s[i]) && (s[i] == '@' ==> i == at) {
      if i < at {
        assert s[i] == s[..at][i];
      } else if i > at {
        assert s[i] == s[at + 1..][i - at - 1];
      }
    }
  }

  // ---------------------------------------------------------------- errors

  type Errors = map<Field, string>

  const NameRequired := "Name is required"
  const EmailRequired := "Email is required"
  const InvalidEmail := "Invalid email format"
  const MessageRequired := "Message is required"

  /** The error text for a required field left empty. */
  function RequiredMessage(f: Field): string
  {
    match f
    case Name => NameRequired
    case Email => EmailRequired
    case Subject => ""
    case Message => MessageRequired
  }

  /** `m` and `m'` hold the same entries on every key but `f`. */
  ghost predicate AgreeExcept(m: Errors, m': Errors, f: Field)
  {
    forall g :: g != f ==> (g in m <==> g in m') && (g in m ==> m[g] == m'[g])
  }

  /**
   * `validateField(name, value)`: the live check on every keystroke. It tests
   * emptiness without trimming and touches only the key of the edited field.
   */
  function ValidateField(errors: Errors, f: Field, value: string): (r: Errors)
    ensures AgreeExcept(errors, r, f)
    ensures f == Subject ==> r == errors
    ensures f == Name || f == Message ==>
      (f in r <==> value == "") && (f in r ==> r[f] == RequiredMessage(f))
    ensures f == Email ==> (Email in r <==> !IsValidEmail(value))
    ensures f == Email && Email in r ==> r[Email] == (if value == "" then EmailRequired else InvalidEmail)
  {
    match f
    case Email =>
      if value == "" then errors[Email := EmailRequired]
      else if !IsValidEmail(value) then errors[Email := InvalidEmail]
      else errors - {Email}
    case Name =>
      if value == "" then errors[Name := NameRequired] else errors - {Name}
    case Message =>
      if value == "" then errors[Message := MessageRequired] else errors - {Message}
    case Subject => errors
  }

  /** `validateForm`'s error object: trimmed required checks, and the pattern on the untrimmed email. */
  function FormErrors(form: FormData): (errors: Errors)
    ensures errors.Keys <= {Name, Email, Message}
    ensures Name in errors <==> IsBlank(form.name)
    ensures Message in errors <==> IsBlank(form.message)
    ensures Email in errors <==> IsBlank(form.email) || !IsValidEmail(form.email)
    ensures forall f :: f in errors && f != Email ==> errors[f] == RequiredMessage(f)
    ensures Email in errors ==> errors[Email] == (if IsBlank(form.email) then EmailRequired else InvalidEmail)
  {
    TrimEmptyIffBlank(form.name);
    TrimEmptyIffBlank(form.email);
    TrimEmptyIffBlank(form.message);
    var e0: Errors := map[];
    var e1 := if Trim(form.name) == [] then e0[Name := NameRequired] else e0;
    var e2 :=
      if Trim(form.email) == [] then e1[Email := EmailRequired]
      else if !IsValidEmail(form.email) then e1[Email := InvalidEmail]
      else e1;
    if Trim(form.message) == [] then e2[Message := MessageRequired] else e2
  }

  /** The form passes exactly when name, email and message pass. */
  lemma FormValidIff(form: FormData)
    ensures FormErrors(form) == map[] <==>
      !IsBlank(form.name) && !IsBlank(form.message) && IsValidEmail(form.email)
  {
    var errors := FormErrors(form);
    if IsBlank(form.name) {
      assert Name in errors;
    } else if IsBlank(form.message) {
      assert Message in errors;
    } else if !IsValidEmail(form.email) {
      assert Email in errors;
    } else {
      ValidEmailNotBlank(form.email);
      assert errors.Keys == {};
    }
  }

  /** The subject is never checked. */
  lemma SubjectNeverChecked(form: FormData, subject: string)
    ensures FormErrors(form.(subject := subject)) == FormErrors(form)
  {
  }

  lemma ValidEmailNotBlank(s: string)
    requires IsValidEmail(s)
    ensures !IsBlank(s)
  {
    ValidEmailShape(s);
  }

  /**
   * A whitespace-only name clears the live error but is still rejected when
   * the form is submitted.
   */
  lemma {:induction false} BlankNameLiveVersusSubmit(errors: Errors, form: FormData, value: string)
    requires value != "" && IsBlank(value)
    ensures Name !in ValidateField(errors, Name, value)
    ensures Name in FormErrors(form.With(Name, value))
  {
  }

  // ---------------------------------------------------------------- submit

  const DefaultSubject := "Message from Portfolio"
  const SendFailed := "Failed to send message. Please try again later."

  /** The `template_params` of the EmailJS request. */
  datatype EmailParams = EmailParams(fromName: string, fromEmail: string, subject: string, message: string)

  function TemplateParams(form: FormData): (p: EmailParams)
    ensures p.fromName == form.name && p.fromEmail == form.email && p.message == form.message
    ensures p.subject != ""
    ensures form.subject != "" ==> p.subject == form.subject
  {
    EmailParams(form.name, form.email, if form.subject == "" then DefaultSubject else form.subject, form.message)
  }

  /** The state of the `Contact` component that the form handlers update. */
  class ContactForm {
    var formData: FormData
    var isSubmitting: bool
    var isSubmitted: bool
    var error: string
    var validationErrors: Errors

    /** The inputs' `maxLength` keeps every field within its limit. */
    ghost predicate Valid()
      reads this
    {
      formData.WithinLimits()
    }

    constructor ()
      ensures Valid()
      ensures formData == EmptyForm && !isSubmitting && !isSubmitted && error == "" && validationErrors == map[]
    {
      formData := EmptyForm;
      isSubmitting := false;
      isSubmitted := false;
      error := "";
      validationErrors := map[];
    }

    /** `handleChange`: the input `f` now holds `value`; only its field and its error entry change. */
    method HandleChange(f: Field, value: string)
      requires Valid()
      requires |value| <= CharLimit(f)
      modifies this
      ensures Valid()
      ensures formData == old(formData).With(f, value)
      ensures validationErrors == ValidateField(old(validationErrors), f, value)
      ensures isSubmitting == old(isSubmitting) && isSubmitted == old(isSubmitted) && error == old(error)
    {
      formData := formData.With(f, value);
      validationErrors := ValidateField(validationErrors, f, value);
    }

    /** `validateForm`: replaces the error map and reports whether it is empty. */
    method ValidateForm() returns (ok: bool)
      modifies this
      ensures validationErrors == FormErrors(formData)
      ensures ok <==> validationErrors == map[]
      ensures formData == old(formData) && isSubmitting == old(isSubmitting)
      ensures isSubmitted == old(isSubmitted) && error == old(error)
    {
      var errors := FormErrors(formData);
      validationErrors := errors;
      ok := |errors.Keys| == 0;
      assert ok <==> errors == map[];
    }

    /**
     * `handleSubmit` up to its `await`: on a failed validation nothing is
     * sent; otherwise the request is built and the form is submitting.
     */
    method BeginSubmit() returns (request: Option<EmailParams>)
      requires Valid()
      modifies this
      ensures Valid()
      ensures formData == old(formData) && isSubmitted == old(isSubmitted)
      ensures validationErrors == FormErrors(formData)
      ensures request.None? <==> validationErrors != map[]
      ensures request.None? ==> isSubmitting == old(isSubmitting) && error == old(error)
      ensures request.Some? ==> request.value == TemplateParams(formData) && isSubmitting && error == ""
    {
      var ok := ValidateForm();
      if !ok {
        return None;
      }
      isSubmitting := true;
      error := "";
      request := Some(TemplateParams(formData));
    }

    /**
     * `handleSubmit` after the request settles: `sent` is whether the
     * response was ok. Success clears the form; failure keeps it and reports.
     */
    method CompleteSubmit(sent: bool)
      requires Valid() && isSubmitting
      modifies this
      ensures Valid()
      ensures !isSubmitting
      ensures validationErrors == old(validationErrors)
      ensures sent ==> formData == EmptyForm && isSubmitted && error == old(error)
      ensures !sent ==> formData == old(formData) && isSubmitted == old(isSubmitted) && error == SendFailed
    {
      if sent {
        formData := EmptyForm;
        isSubmitted := true;
      } else {
        error := SendFailed;
      }
      isSubmitting := false;
    }
  }
}
