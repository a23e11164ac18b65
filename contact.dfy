/**
 * The contact form: four fields, a validator that records at most one error
 * per field, error clearing as the user types, a submit gated on validation,
 * and a reset that keeps the errors.
 */
module Contact {
  import opened Wrappers
  import opened Seqs
  import opened Text

  datatype Field = Name | Email | Subject | Message

  datatype ContactForm = ContactForm(name: string, email: string, subject: string, message: string)

  const EmptyForm := ContactForm("", "", "", "")

  /** `{ ...prev, [name]: value }`. */
  function WithField(form: ContactForm, field: Field, value: string): ContactForm
  {
    match field
    case Name => form.(name := value)
    case Email => form.(email := value)
    case Subject => form.(subject := value)
    case Message => form.(message := value)
  }

  // ---------------------------------------------------------------------------
  // The address pattern /^[^\s@]+@[^\s@]+\.[^\s@]+$/

  /** A character of `[^\s@]`. */
  predicate Plain(c: char)
  {
    !IsJsWhitespace(c) && c != '@'
  }

  predicate AllPlain(s: string)
  {
    forall i :: 0 <= i < |s| ==> Plain(s[i])
  }

  /**
   * What the pattern accepts: a non-empty local part, '@', a non-empty host,
   * '.', a non-empty last label, none of the three containing whitespace or
   * '@' (the host may itself contain dots).
   */
  predicate MatchesEmailPattern(s: string)
  {
    exists at, dot | 0 <= at < |s| && 0 <= dot < |s| :: SplitsAt(s, at, dot)
  }

  /** `s` is local part, '@' at `at`, host, '.' at `dot`, last label. */
  predicate SplitsAt(s: string, at: int, dot: int)
  {
    0 < at && at + 1 < dot && dot + 1 < |s| && s[at] == '@' && s[dot] == '.' &&
    AllPlain(s[..at]) && AllPlain(s[at + 1..dot]) && AllPlain(s[dot + 1..])
  }

  /**
   * A direct scan with the same verdict: no whitespace anywhere, a first '@'
   * that is not the first character, no further '@', and a '.' in the domain
   * that is neither its first nor its last character.
   */
  function EmailLooksValid(s: string): bool
  {
    NoWhitespace(s) &&
    match FindFirst(s, (c: char) => c == '@')
    case None => false
    case Some(at) =>
      var domain := s[at + 1..];
      at > 0 && !Any(domain, (c: char) => c == '@') && |domain| >= 3 &&
      Any(domain[1..|domain| - 1], (c: char) => c == '.')
  }

  /** The scan and the pattern agree on every string. */
  lemma EmailCheckIsPattern(s: string)
    ensures EmailLooksValid(s) <==> MatchesEmailPattern(s)
  {
    if EmailLooksValid(s) {
      ScanImpliesPattern(s);
    }
    if MatchesEmailPattern(s) {
      PatternImpliesScan(s);
    }
  }

  lemma ScanImpliesPattern(s: string)
    requires EmailLooksValid(s)
    ensures MatchesEmailPattern(s)
  {
    var at := FindFirst(s, (c: char) => c == '@').value;
    var domain := s[at + 1..];
    var inner := domain[1..|domain| - 1];
    var j := FindFirst(inner, (c: char) => c == '.').value;
    var dot := at + 2 + j;
    assert s[dot] == inner[j] == '.';
    assert s[..at] == s[..at];
    AnyIff(domain, (c: char) => c == '@');
    forall i | 0 <= i < |s| && i != at ensures s[i] != '@' {
      if i > at {
        assert s[i] == domain[i - at - 1];
      }
    }
    assert AllPlain(s[..at]);
    assert AllPlain(s[at + 1..dot]);
    assert AllPlain(s[dot + 1..]);
    assert SplitsAt(s, at, dot);
  }

  lemma PatternImpliesScan(s: string)
    requires MatchesEmailPattern(s)
    ensures EmailLooksValid(s)
  {
    var at, dot :| 0 <= at < |s| && 0 <= dot < |s| && SplitsAt(s, at, dot);
    forall i | 0 <= i < |s| ensures !IsJsWhitespace(s[i]) && (i != at ==> s[i] != '@') {
      if i < at {
        assert s[i] == s[..at][i];
      } else if at < i < dot {
        assert s[i] == s[at + 1..dot][i - at - 1];
      } else if dot < i {
        assert s[i] == s[dot + 1..][i - dot - 1];
      }
    }
    var found := FindFirst(s, (c: char) => c == '@');
    assert found == Some(at);
    var domain := s[at + 1..];
    AnyIff(domain, (c: char) => c == '@');
    forall i | 0 <= i < |domain| ensures domain[i] != '@' {
      assert domain[i] == s[at + 1 + i];
    }
    var inner := domain[1..|domain| - 1];
    assert inner[dot - at - 2] == '.';
    AnyIff(inner, (c: char) => c == '.');
  }

  /** The pattern test `validate` runs, by way of the scan. */
  function ValidEmail(s: string): (r: bool)
    ensures r == MatchesEmailPattern(s)
  {
    EmailCheckIsPattern(s);
    EmailLooksValid(s)
  }

  // ---------------------------------------------------------------------------
  // validate

  /** The check `validate` runs on one field, and the message it records. */
  function FieldError(form: ContactForm, field: Field): (r: Option<string>)
    ensures field == Name ==> r == if IsBlank(form.name) then Some("Name is required") else None
    ensures field == Email ==>
      (r == if IsBlank(form.email) then Some("Email is required")
            else if !MatchesEmailPattern(form.email) then Some("Please enter a valid email address")
            else None)
    ensures field == Subject ==> r == if IsBlank(form.subject) then Some("Subject is required") else None
    ensures field == Message ==>
      (r == if IsBlank(form.message) then Some("Message is required")
            else if |form.message| < 20 then Some("Message must be at least 20 characters")
            else None)
  {
    match field
    case Name => if TrimsToEmpty(form.name) then Some("Name is required") else None
    case Email =>
      if TrimsToEmpty(form.email) then Some("Email is required")
      else if !ValidEmail(form.email) then Some("Please enter a valid email address")
      else None
    case Subject => if TrimsToEmpty(form.subject) then Some("Subject is required") else None
    case Message =>
      if TrimsToEmpty(form.message) then Some("Message is required")
      else if |form.message| < 20 then Some("Message must be at least 20 characters")
      else None
  }

  /**
   * `validate`'s `newErrors`: a field is a key exactly when it fails its check,
   * with that check's message; the email's "required" check comes before its
   * pattern check, the message's before its length check.
   */
  function ValidationErrors(form: ContactForm): (errors: map<Field, string>)
    ensures forall field :: field in errors <==> FieldError(form, field).Some?
    ensures forall field :: field in errors ==> errors[field] == FieldError(form, field).value
  {
    map field | field in {Name, Email, Subject, Message} && FieldError(form, field).Some? ::
      FieldError(form, field).value
  }

  /** `validate()` is true exactly when every field passes its check. */
  lemma ValidIffAllChecksPass(form: ContactForm)
    ensures |ValidationErrors(form)| == 0 <==>
      && !IsBlank(form.name)
      && !IsBlank(form.email) && MatchesEmailPattern(form.email)
      && !IsBlank(form.subject)
      && !IsBlank(form.message) && |form.message| >= 20
  {
    var errors := ValidationErrors(form);
    if |errors| == 0 {
      assert Name !in errors && Email !in errors && Subject !in errors && Message !in errors;
      assert FieldError(form, Name).None? && FieldError(form, Email).None?;
      assert FieldError(form, Subject).None? && FieldError(form, Message).None?;
    } else {
      var k :| k in errors;
      assert FieldError(form, k).Some?;
    }
  }

  /** Every recorded error is a non-empty (truthy) message. */
  predicate MessagesPresent(errors: map<Field, string>)
  {
    forall k :: k in errors ==> errors[k] != ""
  }

  /** Every message `validate` records is non-empty. */
  lemma ValidationMessagesPresent(form: ContactForm)
    ensures MessagesPresent(ValidationErrors(form))
  {
    var errors := ValidationErrors(form);
    forall k | k in errors
      ensures errors[k] != ""
    {
      var m := FieldError(form, k).value;
      assert errors[k] == m;
      assert |m| > 0 by {
        match k
        case Name =>
        case Email =>
        case Subject =>
        case Message =>
      }
    }
  }

  class ContactPage {
    var form: ContactForm
    var errors: map<Field, string>
    var loading: bool
    var submitted: bool

    constructor ()
      ensures form == EmptyForm && errors == map[] && !loading && !submitted
    {
      form := EmptyForm;
      errors := map[];
      loading, submitted := false, false;
    }

    /** The page's error map only ever holds messages `validate` produced. */
    predicate Valid()
      reads this
    {
      MessagesPresent(errors)
    }

    /** Typing into a field updates it and clears that field's error only. */
    method HandleChange(field: Field, value: string)
      requires Valid()
      modifies this
      ensures Valid()
      ensures form == WithField(old(form), field, value)
      ensures errors == old(errors) - {field}
      ensures loading == old(loading) && submitted == old(submitted)
    {
      form := WithField(form, field, value);
      if field in errors && errors[field] != "" {
        errors := errors - {field};
      }
    }

    /** `validate`: replaces the error map and reports whether it is empty. */
    method Validate() returns (ok: bool)
      modifies this
      ensures Valid()
      ensures errors == ValidationErrors(form) && ok == (errors == map[])
      ensures form == old(form) && loading == old(loading) && submitted == old(submitted)
    {
      errors := ValidationErrors(form);
      ValidationMessagesPresent(form);
      ok := |errors| == 0;
      if !ok {
        var k :| k in errors;
      }
    }

    /**
     * `handleSubmit` (its delay taken as immediate): a failed validation stops
     * before anything but the errors changes; otherwise the form is marked
     * submitted and loading ends where it began.
     */
    method HandleSubmit() returns (sent: bool)
      modifies this
      ensures Valid()
      ensures errors == ValidationErrors(old(form)) && sent == (errors == map[])
      ensures !sent ==> submitted == old(submitted) && loading == old(loading)
      ensures sent ==> submitted && !loading
      ensures form == old(form)
    {
      var ok := Validate();
      if !ok {
        return false;
      }
      loading := true;
      submitted := true;
      loading := false;
      sent := true;
    }

    /** Clears the four fields and the submitted flag; the errors stay. */
    method ResetForm()
      modifies this
      ensures form == EmptyForm && !submitted
      ensures errors == old(errors) && loading == old(loading)
    {
      form := EmptyForm;
      submitted := false;
    }
  }
}
