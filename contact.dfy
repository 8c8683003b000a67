/** The contact page: a four-field form, its validator, and the simulated
    submission whose two `setTimeout` continuations are explicit events. */
module ContactPage {
  import opened JsString
  import opened Wrappers

  datatype Field = Name | Email | Subject | Message

  /** The `FormData` shape: four strings. */
  datatype FormData = FormData(name: string, email: string, subject: string, message: string) {
    function Get(f: Field): string {
      match f
      case Name => name
      case Email => email
      case Subject => subject
      case Message => message
    }

    /** The functional update `{ ...prev, [f]: v }`: the named field is set,
        the other three are kept. */
    function With(f: Field, v: string): (r: FormData)
      ensures r.Get(f) == v
      ensures forall g: Field | g != f :: r.Get(g) == Get(g)
    {
      match f
      case Name => this.(name := v)
      case Email => this.(email := v)
      case Subject => this.(subject := v)
      case Message => this.(message := v)
    }
  }

  const EmptyForm := FormData("", "", "", "")

  /** The `FormErrors` shape: each field's message, or `None` when the
      property is absent (the field has no error). */
  datatype FormErrors = FormErrors(
    name: Option<string>, email: Option<string>, subject: Option<string>, message: Option<string>)
  {
    function Get(f: Field): Option<string> {
      match f
      case Name => name
      case Email => email
      case Subject => subject
      case Message => message
    }

    /** The object `{}`: no field carries an error. */
    predicate IsEmpty() {
      name == None && email == None && subject == None && message == None
    }
  }

  const NoErrors := FormErrors(None, None, None, None)

  const NameRequired := "Name is required"
  const EmailRequired := "Email is required"
  const EmailInvalid := "Email is invalid"
  const SubjectRequired := "Subject is required"
  const MessageRequired := "Message is required"
  const SuccessMessage := "Gracias por el mensaje. te contactare pronto!"

  function RequiredMessage(f: Field): string {
    match f
    case Name => NameRequired
    case Email => EmailRequired
    case Subject => SubjectRequired
    case Message => MessageRequired
  }

  // ---------------------------------------------------------------------
  // The email format test /\S+@\S+\.\S+/.test(email)
  // ---------------------------------------------------------------------

  /** `s[i..j]` is a run of non-whitespace characters (`\S*`). */
  predicate NonSpace(s: string, i: int, j: int) {
    0 <= i <= j <= |s| && forall m | i <= m < j :: !IsSpace(s[m])
  }

  /** The substring `s[p..q]` matches `\S+@\S+\.\S+` with the `@` at `a` and
      the escaped `.` at `d`. */
  ghost predicate MatchWindow(s: string, p: int, a: int, d: int, q: int) {
    && p < a && a + 1 < d && d + 1 < q
    && NonSpace(s, p, a) && NonSpace(s, a + 1, d) && NonSpace(s, d + 1, q)
    && s[a] == '@' && s[d] == '.'
  }

  /** `RegExp.prototype.test` of the unanchored pattern: some substring matches. */
  ghost predicate RegexTest(s: string) {
    exists p, a, d, q :: MatchWindow(s, p, a, d, q)
  }

  /** From `k` on, a run of non-whitespace reaches a `.` that is followed by
      one more non-whitespace character. */
  predicate DotTail(s: string, k: nat)
    decreases |s| - k
  {
    && k < |s|
    && !IsSpace(s[k])
    && ((s[k] == '.' && k + 1 < |s| && !IsSpace(s[k + 1])) || DotTail(s, k + 1))
  }

  /** The pattern matches with its `@` at position `a`. */
  predicate AtMatch(s: string, a: int) {
    && 1 <= a && a + 1 < |s|
    && s[a] == '@' && !IsSpace(s[a - 1]) && !IsSpace(s[a + 1])
    && DotTail(s, a + 2)
  }

  /** Scans for an `@` at position `i` or later where the pattern matches. */
  predicate ScanFrom(s: string, i: nat)
    decreases |s| - i
  {
    i < |s| && (AtMatch(s, i) || ScanFrom(s, i + 1))
  }

  /** The executable email format test. */
  predicate EmailPattern(s: string) {
    ScanFrom(s, 0)
  }

  /** A `.` at `d >= k`, followed by a non-whitespace character, with nothing
      but non-whitespace from `k` up to it. */
  ghost predicate DotAt(s: string, k: int, d: int) {
    0 <= k <= d && d + 1 < |s| && s[d] == '.' && NonSpace(s, k, d + 2)
  }

  lemma {:induction false} DotTailMeaning(s: string, k: nat)
    ensures DotTail(s, k) <==> exists d :: DotAt(s, k, d)
    decreases |s| - k
  {
    if DotTail(s, k) {
      if s[k] == '.' && k + 1 < |s| && !IsSpace(s[k + 1]) {
        assert DotAt(s, k, k);
      } else {
        DotTailMeaning(s, k + 1);
        var d :| DotAt(s, k + 1, d);
        assert DotAt(s, k, d);
      }
    }
    if exists d :: DotAt(s, k, d) {
      var d :| DotAt(s, k, d);
      if d > k {
        assert DotAt(s, k + 1, d);
        DotTailMeaning(s, k + 1);
      }
    }
  }

  lemma {:induction false} ScanFromMeaning(s: string, i: nat)
    ensures ScanFrom(s, i) <==> exists a :: i <= a && AtMatch(s, a)
    decreases |s| - i
  {
    if i < |s| {
      ScanFromMeaning(s, i + 1);
      if exists a :: i <= a && AtMatch(s, a) {
        var a :| i <= a && AtMatch(s, a);
        if a > i {
          assert i + 1 <= a;
        }
      }
    }
  }

  /** The executable test agrees with the regular expression's meaning. */
  lemma EmailPatternIsRegex(s: string)
    ensures EmailPattern(s) <==> RegexTest(s)
  {
    ScanFromMeaning(s, 0);
    if EmailPattern(s) {
      var a :| 0 <= a && AtMatch(s, a);
      DotTailMeaning(s, a + 2);
      var d :| DotAt(s, a + 2, d);
      assert MatchWindow(s, a - 1, a, d, d + 2);
    }
    if RegexTest(s) {
      var p, a, d, q :| MatchWindow(s, p, a, d, q);
      assert DotAt(s, a + 2, d);
      DotTailMeaning(s, a + 2);
      assert AtMatch(s, a);
    }
  }

  /** The three examples: no `@` fails; a minimal address and a string with a
      space before the matching part both pass, because the test is unanchored. */
  lemma EmailPatternExamples()
    ensures !RegexTest("foo")
    ensures RegexTest("a@b.c")
    ensures RegexTest("x y@z.w")
  {
    EmailPatternIsRegex("foo");
    EmailPatternIsRegex("a@b.c");
    EmailPatternIsRegex("x y@z.w");
    assert !AtMatch("foo", 0) && !AtMatch("foo", 1) && !AtMatch("foo", 2);
    assert AtMatch("a@b.c", 1);
    assert AtMatch("x y@z.w", 3);
  }

  // ---------------------------------------------------------------------
  // validateForm
  // ---------------------------------------------------------------------

  /** The error `validateForm` records for one field holding `v`; a `trim()`
      result is falsy exactly when it is the empty string, and the format test
      is consulted only for a non-blank email. */
  function FieldError(f: Field, v: string): Option<string> {
    if Trim(v) == "" then Some(RequiredMessage(f))
    else if f == Email && !EmailPattern(v) then Some(EmailInvalid)
    else None
  }

  /** The error object `validateForm` builds from scratch: every field is
      checked, none short-circuits another. */
  function Validate(form: FormData): FormErrors {
    FormErrors(
      FieldError(Name, form.name), FieldError(Email, form.email),
      FieldError(Subject, form.subject), FieldError(Message, form.message))
  }

  /** Name, subject and message: an error is reported exactly when the field
      is blank, and the error is that field's "is required" message. */
  lemma RequiredErrorIffBlank(form: FormData, f: Field)
    requires f != Email
    ensures Validate(form).Get(f).Some? <==> AllSpace(form.Get(f))
    ensures Validate(form).Get(f).Some? ==> Validate(form).Get(f).value == RequiredMessage(f)
  {
    TrimEmptyIffAllSpace(form.Get(f));
  }

  /** Email: a blank value is "required" and the format test is not
      consulted; a non-blank value is "invalid" exactly when the test fails. */
  lemma EmailError(form: FormData)
    ensures AllSpace(form.email) ==> Validate(form).email == Some(EmailRequired)
    ensures !AllSpace(form.email) ==> (Validate(form).email.Some? <==> !RegexTest(form.email))
    ensures !AllSpace(form.email) && Validate(form).email.Some? ==> Validate(form).email == Some(EmailInvalid)
  {
    TrimEmptyIffAllSpace(form.email);
    EmailPatternIsRegex(form.email);
  }

  /** The checks are independent: a field's entry depends on that field alone. */
  lemma ErrorDependsOnlyOnField(form1: FormData, form2: FormData, f: Field)
    requires form1.Get(f) == form2.Get(f)
    ensures Validate(form1).Get(f) == Validate(form2).Get(f)
  {
  }

  /** The form is accepted exactly when every field is non-blank and the
      email passes the format test. */
  lemma ValidIff(form: FormData)
    ensures Validate(form).IsEmpty() <==>
      && !AllSpace(form.name) && !AllSpace(form.email) && RegexTest(form.email)
      && !AllSpace(form.subject) && !AllSpace(form.message)
  {
    RequiredErrorIffBlank(form, Name);
    RequiredErrorIffBlank(form, Subject);
    RequiredErrorIffBlank(form, Message);
    EmailError(form);
  }

  /** An all-blank form (the empty one included) reports all four "required"
      errors at once. */
  lemma BlankFormReportsEveryField(form: FormData)
    requires AllSpace(form.name) && AllSpace(form.email) && AllSpace(form.subject) && AllSpace(form.message)
    ensures Validate(form) ==
      FormErrors(Some(NameRequired), Some(EmailRequired), Some(SubjectRequired), Some(MessageRequired))
  {
    RequiredErrorIffBlank(form, Name);
    RequiredErrorIffBlank(form, Subject);
    RequiredErrorIffBlank(form, Message);
    EmailError(form);
  }

  /** Email "foo" with the other fields filled: only the email is reported,
      as invalid. */
  lemma MalformedEmailOnlyError(name: string, subject: string, message: string)
    requires !AllSpace(name) && !AllSpace(subject) && !AllSpace(message)
    ensures Validate(FormData(name, "foo", subject, message)) == FormErrors(None, Some(EmailInvalid), None, None)
  {
    var form := FormData(name, "foo", subject, message);
    RequiredErrorIffBlank(form, Name);
    RequiredErrorIffBlank(form, Subject);
    RequiredErrorIffBlank(form, Message);
    EmailError(form);
    EmailPatternExamples();
    assert !AllSpace("foo") by { assert !IsSpace("foo"[0]); }
  }

  // ---------------------------------------------------------------------
  // The component state and its handlers
  // ---------------------------------------------------------------------

  /** The state of one mounted `Contact` component. The two counters are the
      `setTimeout` callbacks that are scheduled and have not fired yet. */
  class ContactForm {
    var formData: FormData
    var errors: FormErrors
    var isSubmitting: bool
    var submitMessage: string
    var pendingSends: nat
    var pendingClears: nat

    constructor ()
      ensures formData == EmptyForm && errors == NoErrors
      ensures !isSubmitting && submitMessage == ""
      ensures pendingSends == 0 && pendingClears == 0
    {
      formData := EmptyForm;
      errors := NoErrors;
      isSubmitting := false;
      submitMessage := "";
      pendingSends := 0;
      pendingClears := 0;
    }

    /** `handleChange`: only the named field takes the new value. */
    method HandleChange(f: Field, value: string)
      modifies this`formData
      ensures formData == old(formData).With(f, value)
    {
      formData := formData.With(f, value);
    }

    /** `validateForm`: builds a fresh error map, replaces the old one with it
        wholesale, and reports whether it is empty. */
    method ValidateForm() returns (isValid: bool)
      modifies this`errors
      ensures errors == Validate(formData)
      ensures isValid <==> errors.IsEmpty()
    {
      var newErrors := NoErrors;
      isValid := true;
      if Trim(formData.name) == "" {
        newErrors := newErrors.(name := Some(NameRequired));
        isValid := false;
      }
      if Trim(formData.email) == "" {
        newErrors := newErrors.(email := Some(EmailRequired));
        isValid := false;
      } else if !EmailPattern(formData.email) {
        newErrors := newErrors.(email := Some(EmailInvalid));
        isValid := false;
      }
      if Trim(formData.subject) == "" {
        newErrors := newErrors.(subject := Some(SubjectRequired));
        isValid := false;
      }
      if Trim(formData.message) == "" {
        newErrors := newErrors.(message := Some(MessageRequired));
        isValid := false;
      }
      errors := newErrors;
    }

    /** `handleSubmit`: an invalid form only updates `errors`; a valid one also
        sets `isSubmitting` and schedules the simulated send. */
    method HandleSubmit() returns (accepted: bool)
      modifies this`errors, this`isSubmitting, this`pendingSends
      ensures errors == Validate(formData)
      ensures accepted <==> Validate(formData).IsEmpty()
      ensures accepted ==> isSubmitting && pendingSends == old(pendingSends) + 1
      ensures !accepted ==> isSubmitting == old(isSubmitting) && pendingSends == old(pendingSends)
    {
      accepted := ValidateForm();
      if accepted {
        isSubmitting := true;
        pendingSends := pendingSends + 1;
      }
    }

    /** The 1500 ms continuation: the send completes, the success notice is
        shown, every field is reset, and the notice's clear is scheduled. */
    method SendTimerFires()
      requires pendingSends > 0
      modifies this`isSubmitting, this`submitMessage, this`formData, this`pendingSends, this`pendingClears
      ensures !isSubmitting && submitMessage == SuccessMessage && submitMessage != ""
      ensures formData == EmptyForm
      ensures pendingSends == old(pendingSends) - 1 && pendingClears == old(pendingClears) + 1
    {
      isSubmitting := false;
      submitMessage := SuccessMessage;
      formData := EmptyForm;
      pendingSends := pendingSends - 1;
      pendingClears := pendingClears + 1;
    }

    /** The 5000 ms continuation: only the notice is cleared. */
    method ClearTimerFires()
      requires pendingClears > 0
      modifies this`submitMessage, this`pendingClears
      ensures submitMessage == "" && pendingClears == old(pendingClears) - 1
    {
      submitMessage := "";
      pendingClears := pendingClears - 1;
    }
  }

  /** A whole valid submission: type the four fields, submit, let the send
      complete, let the notice clear. */
  method ValidSubmissionScenario(form: FormData)
    returns (accepted: bool, noticeAfterSend: string, formAfterSend: FormData, noticeAfterClear: string)
    requires Validate(form).IsEmpty()
    ensures accepted && noticeAfterSend != "" && formAfterSend == EmptyForm && noticeAfterClear == ""
  {
    var c := new ContactForm();
    c.HandleChange(Name, form.name);
    c.HandleChange(Email, form.email);
    c.HandleChange(Subject, form.subject);
    c.HandleChange(Message, form.message);
    assert c.formData == form;
    accepted := c.HandleSubmit();
    c.SendTimerFires();
    noticeAfterSend, formAfterSend := c.submitMessage, c.formData;
    c.ClearTimerFires();
    noticeAfterClear := c.submitMessage;
  }

  /** Submitting the untouched form is refused with all four errors and leaves
      the form idle. */
  method EmptySubmissionScenario() returns (accepted: bool, errors: FormErrors, submitting: bool)
    ensures !accepted && !submitting
    ensures errors == FormErrors(Some(NameRequired), Some(EmailRequired), Some(SubjectRequired), Some(MessageRequired))
  {
    var c := new ContactForm();
    accepted := c.HandleSubmit();
    BlankFormReportsEveryField(EmptyForm);
    errors, submitting := c.errors, c.isSubmitting;
  }
}
