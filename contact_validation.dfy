/**
 * The checks POST /api/contact applies to a submission before anything is
 * stored: all four fields required, the e-mail format, then the length
 * caps, in that order; the first failing check decides the 400 answer.
 */
module ContactValidation {
  import opened Wrappers
  import opened JsText

  const MaxNameLength := 100
  const MaxEmailLength := 150
  const MaxSubjectLength := 200
  const MaxMessageLength := 2000

  /** The JSON body of a submission; a field the body lacks is `None`. */
  datatype Submission = Submission(
    name: Option<string>, email: Option<string>,
    subject: Option<string>, message: Option<string>)

  /** The four fields of a submission that passed every check. */
  datatype ContactFields = ContactFields(name: string, email: string, subject: string, message: string)

  /** Why a submission is refused, in the order the checks run. */
  datatype Rejection = MissingField | InvalidEmail | TooLong

  datatype Verdict = Valid(fields: ContactFields) | Invalid(reason: Rejection)

  /** The `message` of the 400 answer for each rejection. */
  function RejectionMessage(r: Rejection): string {
    match r
    case MissingField => "All fields are required"
    case InvalidEmail => "Please provide a valid email address"
    case TooLong => "One or more fields exceed maximum length"
  }

  /** A character of the class `[^\s@]`. */
  predicate IsAddressChar(c: char) {
    !IsJsSpace(c) && c != '@'
  }

  predicate AllAddressChars(s: string) {
    forall i :: 0 <= i < |s| ==> IsAddressChar(s[i])
  }

  /**
   * The strings `^[^\s@]+@[^\s@]+\.[^\s@]+$` matches: three non-empty runs
   * of `[^\s@]` separated by an `@` (at index `at`) and a `.` (at `dot`).
   */
  ghost predicate MatchesEmailPattern(s: string) {
    exists at: nat, dot: nat ::
      && 0 < at && at + 1 < dot && dot + 1 < |s|
      && s[at] == '@' && s[dot] == '.'
      && AllAddressChars(s[..at]) && AllAddressChars(s[at + 1..dot]) && AllAddressChars(s[dot + 1..])
  }

  /**
   * The e-mail check: no whitespace, exactly one `@` with something before
   * it, and a `.` after the `@` that is neither the first nor the last
   * character of the part after the `@`. This is exactly the language of
   * the pattern.
   */
  function IsValidEmail(s: string): (ok: bool)
    ensures ok <==> MatchesEmailPattern(s)
  {
    var ok :=
      && (forall i | 0 <= i < |s| :: !IsJsSpace(s[i]))
      && exists at | 0 < at < |s| ::
        && s[at] == '@'
        && (forall j | 0 <= j < |s| && j != at :: s[j] != '@')
        && exists dot | at + 1 < dot < |s| - 1 :: s[dot] == '.';
    EmailCheckSound(s);
    EmailCheckComplete(s);
    ok
  }

  lemma EmailCheckSound(s: string)
    ensures (forall i | 0 <= i < |s| :: !IsJsSpace(s[i]))
      && (exists at | 0 < at < |s| ::
        && s[at] == '@'
        && (forall j | 0 <= j < |s| && j != at :: s[j] != '@')
        && exists dot | at + 1 < dot < |s| - 1 :: s[dot] == '.')
      ==> MatchesEmailPattern(s)
  {
    if (forall i | 0 <= i < |s| :: !IsJsSpace(s[i]))
      && (exists at | 0 < at < |s| ::
        && s[at] == '@'
        && (forall j | 0 <= j < |s| && j != at :: s[j] != '@')
        && exists dot | at + 1 < dot < |s| - 1 :: s[dot] == '.')
    {
      var at :| 0 < at < |s| && s[at] == '@'
        && (forall j | 0 <= j < |s| && j != at :: s[j] != '@')
        && exists dot | at + 1 < dot < |s| - 1 :: s[dot] == '.';
      var dot :| at + 1 < dot < |s| - 1 && s[dot] == '.';
      assert AllAddressChars(s[..at]);
      assert AllAddressChars(s[at + 1..dot]);
      assert AllAddressChars(s[dot + 1..]);
    }
  }

  lemma EmailCheckComplete(s: string)
    ensures MatchesEmailPattern(s) ==>
      && (forall i | 0 <= i < |s| :: !IsJsSpace(s[i]))
      && (exists at | 0 < at < |s| ::
        && s[at] == '@'
        && (forall j | 0 <= j < |s| && j != at :: s[j] != '@')
        && exists dot | at + 1 < dot < |s| - 1 :: s[dot] == '.')
  {
    if MatchesEmailPattern(s) {
      var at: nat, dot: nat :|
        && 0 < at && at + 1 < dot && dot + 1 < |s|
        && s[at] == '@' && s[dot] == '.'
        && AllAddressChars(s[..at]) && AllAddressChars(s[at + 1..dot]) && AllAddressChars(s[dot + 1..]);
      forall j | 0 <= j < |s| && j != at
        ensures s[j] != '@' && !IsJsSpace(s[j])
      {
        if j < at {
          assert s[..at][j] == s[j];
        } else if j < dot {
          assert s[at + 1..dot][j - at - 1] == s[j];
        } else if j > dot {
          assert s[dot + 1..][j - dot - 1] == s[j];
        }
      }
      assert exists dot' | at + 1 < dot' < |s| - 1 :: s[dot'] == '.';
    }
  }

  /** Every field present and non-empty (`!name || !email || ...` is false). */
  predicate AllPresent(b: Submission) {
    Truthy(b.name) && Truthy(b.email) && Truthy(b.subject) && Truthy(b.message)
  }

  predicate WithinCaps(f: ContactFields) {
    && |f.name| <= MaxNameLength && |f.email| <= MaxEmailLength
    && |f.subject| <= MaxSubjectLength && |f.message| <= MaxMessageLength
  }

  /**
   * The validation of POST /api/contact. A submission is accepted iff its
   * four fields are present and non-empty, its e-mail matches the pattern
   * and every field is within its cap; otherwise the FIRST failing check,
   * in the order required, format, lengths, names the rejection.
   */
  function Validate(b: Submission): (v: Verdict)
    ensures v.Valid? <==>
      AllPresent(b) && MatchesEmailPattern(b.email.value)
      && WithinCaps(ContactFields(b.name.value, b.email.value, b.subject.value, b.message.value))
    ensures v.Valid? ==> v.fields == ContactFields(b.name.value, b.email.value, b.subject.value, b.message.value)
    ensures v.Valid? ==> v.fields.name != "" && v.fields.email != "" && v.fields.subject != "" && v.fields.message != ""
    ensures v == Invalid(MissingField) <==> !AllPresent(b)
    ensures v == Invalid(InvalidEmail) <==> AllPresent(b) && !MatchesEmailPattern(b.email.value)
    ensures v == Invalid(TooLong) <==>
      AllPresent(b) && MatchesEmailPattern(b.email.value)
      && !WithinCaps(ContactFields(b.name.value, b.email.value, b.subject.value, b.message.value))
  {
    if !AllPresent(b) then Invalid(MissingField)
    else if !IsValidEmail(b.email.value) then Invalid(InvalidEmail)
    else
      var f := ContactFields(b.name.value, b.email.value, b.subject.value, b.message.value);
      if !WithinCaps(f) then Invalid(TooLong) else Valid(f)
  }

  /** An accepted address has exactly one `@`, with text on both sides. */
  lemma {:induction false} AcceptedEmailShape(b: Submission)
    requires Validate(b).Valid?
    ensures var e := Validate(b).fields.email;
      exists at :: 0 < at < |e| - 1 && e[at] == '@' && forall j :: 0 <= j < |e| && j != at ==> e[j] != '@'
  {
    var e := Validate(b).fields.email;
    EmailCheckComplete(e);
    var at :| 0 < at < |e| && e[at] == '@'
      && (forall j | 0 <= j < |e| && j != at :: e[j] != '@')
      && exists dot | at + 1 < dot < |e| - 1 :: e[dot] == '.';
    assert at < |e| - 1;
  }
}
