/** The lead form's values, the validation rule applied before anything is
    sent, and the record that is sent. Both sites use the same rule and the
    same record shape; they differ in the constants stamped on the record. */
module Lead {

  import opened Wrappers

  // ------------------------------------------------------------ phone rule

  /** A bracketed character class `[lo-hi]` of a regular expression. */
  datatype CharClass = Range(lo: char, hi: char)

  /** The phone pattern `/^[6-9]\d{9}$/`. In JavaScript `\d` is always the
      ASCII class `[0-9]`, and without the `m` flag `^` and `$` anchor at the
      ends of the whole input, so the pattern is one class per character. */
  const PhonePattern: seq<CharClass> := [Range('6', '9')] + Repeat(Range('0', '9'), 9)

  /** `c{n}`: the class `c` repeated `n` times. */
  function Repeat(c: CharClass, n: nat): (p: seq<CharClass>)
    ensures |p| == n && forall i :: 0 <= i < n ==> p[i] == c
  {
    if n == 0 then [] else [c] + Repeat(c, n - 1)
  }

  /** `RegExp.prototype.test` for a pattern anchored at both ends whose items are single classes. */
  function Matches(p: seq<CharClass>, s: string): bool
  {
    if p == [] then s == []
    else s != [] && p[0].lo <= s[0] <= p[0].hi && Matches(p[1..], s[1..])
  }

  predicate IsAsciiDigit(c: char)
  {
    '0' <= c <= '9'
  }

  /** An Indian mobile number: exactly ten ASCII digits, the first one 6, 7, 8 or 9. */
  predicate IsValidPhone(s: string)
  {
    |s| == 10 && '6' <= s[0] <= '9' && forall i :: 1 <= i < |s| ==> IsAsciiDigit(s[i])
  }

  lemma {:induction false} MatchesPositionwise(p: seq<CharClass>, s: string)
    ensures Matches(p, s) <==> |s| == |p| && forall i :: 0 <= i < |s| ==> p[i].lo <= s[i] <= p[i].hi
  {
    if p != [] && s != [] {
      MatchesPositionwise(p[1..], s[1..]);
      if |s| == |p| && forall i :: 0 <= i < |s| ==> p[i].lo <= s[i] <= p[i].hi {
        forall i | 0 <= i < |s[1..]|
          ensures p[1..][i].lo <= s[1..][i] <= p[1..][i].hi
        {
          assert s[1..][i] == s[i + 1];
        }
      }
      if Matches(p, s) {
        forall i | 0 <= i < |s|
          ensures p[i].lo <= s[i] <= p[i].hi
        {
          if i > 0 {
            assert s[i] == s[1..][i - 1];
          }
        }
      }
    }
  }

  /** The regular expression accepts exactly the valid phone numbers. */
  lemma PhonePatternAcceptsValidPhones(s: string)
    ensures Matches(PhonePattern, s) <==> IsValidPhone(s)
  {
    MatchesPositionwise(PhonePattern, s);
    assert |PhonePattern| == 10;
    assert forall i :: 1 <= i < 10 ==> PhonePattern[i] == Range('0', '9');
  }

  /** Accepted and rejected numbers: the pattern is anchored at both ends, so
      a trailing newline or an eleventh digit is refused, and `\d` takes only
      ASCII digits, so Devanagari digits are refused. */
  lemma PhoneExamples()
    ensures IsValidPhone("9876543210") && IsValidPhone("6000000000")
    ensures !IsValidPhone("1234567890") && !IsValidPhone("5876543210")
    ensures !IsValidPhone("98765432101") && !IsValidPhone("987654321")
    ensures !IsValidPhone("9876543210\n") && !IsValidPhone("98765 4321")
    ensures !IsValidPhone("\U{096F}\U{096E}\U{096D}\U{096C}\U{096B}\U{096A}\U{0969}\U{0968}\U{0967}\U{0966}")
  {
    assert !IsAsciiDigit("98765 4321"[5]);
  }

  // ------------------------------------------------------------ validation

  /** The outcome of `validateForm`: accepted, or the first rule that failed. */
  datatype Verdict = Accepted | BadPhone | NoConsent

  /** The phone is checked first, so a bad phone is reported whatever the
      consent box says; the consent box is checked only for a good phone. */
  function Validate(phone: string, consent: bool): (v: Verdict)
    ensures v == Accepted <==> IsValidPhone(phone) && consent
    ensures v == BadPhone <==> !IsValidPhone(phone)
    ensures v == NoConsent <==> IsValidPhone(phone) && !consent
  {
    PhonePatternAcceptsValidPhones(phone);
    if !Matches(PhonePattern, phone) then BadPhone
    else if !consent then NoConsent
    else Accepted
  }

  /** A good number with the box ticked passes; a number starting with 1
      fails on the phone whatever the box says; a good number without the
      box fails on consent. */
  lemma ValidateExamples()
    ensures Validate("9876543210", true) == Accepted
    ensures Validate("1234567890", true) == BadPhone && Validate("1234567890", false) == BadPhone
    ensures Validate("9876543210", false) == NoConsent
  {
    PhoneExamples();
  }

  // ---------------------------------------------------------------- record

  /** The values of the form controls fullName, email, phone, state, course,
      intakeYear (their `value`) and consent (its `checked`). */
  datatype FormFields = FormFields(
    fullName: string, email: string, phone: string, state: string,
    course: string, intakeYear: string, consent: bool)

  /** The constants a site stamps on every record; `leadType` is the
      optional `type` property. */
  datatype Branding = Branding(university: string, source: string, leadType: Option<string>)

  /** The object `collectFormData` returns and the POST carries as its body. */
  datatype LeadSubmission = LeadSubmission(
    fullName: string, email: string, phone: string, state: string,
    course: string, intakeYear: string, consent: bool,
    university: string, timestamp: string, source: string, leadType: Option<string>)

  /** The form values a record carries. */
  function FormOf(r: LeadSubmission): FormFields
  {
    FormFields(r.fullName, r.email, r.phone, r.state, r.course, r.intakeYear, r.consent)
  }

  /** The record built from the form at the time `timestamp`: the seven form
      values unchanged, plus the site's constants and the time. */
  function Collect(b: Branding, f: FormFields, timestamp: string): (r: LeadSubmission)
    ensures FormOf(r) == f
    ensures r.university == b.university && r.source == b.source && r.leadType == b.leadType
    ensures r.timestamp == timestamp
  {
    LeadSubmission(f.fullName, f.email, f.phone, f.state, f.course, f.intakeYear, f.consent,
      b.university, timestamp, b.source, b.leadType)
  }

  /** The property names of the record's JSON body, in the order of the object literal. */
  function JsonKeys(r: LeadSubmission): (keys: seq<string>)
    ensures |keys| == if r.leadType.Some? then 11 else 10
    ensures "type" in keys <==> r.leadType.Some?
    ensures "phone" in keys && "consent" in keys && "university" in keys && "source" in keys
  {
    ["fullName", "email", "phone", "state", "course", "intakeYear", "consent",
     "university", "timestamp", "source"] +
    (if r.leadType.Some? then ["type"] else [])
  }

  /** A record the validation rule lets through. */
  predicate Admissible(r: LeadSubmission)
  {
    r.consent && IsValidPhone(r.phone)
  }

  /** A record built from a form that passed validation is admissible. */
  lemma CollectedIsAdmissible(b: Branding, f: FormFields, timestamp: string)
    requires Validate(f.phone, f.consent) == Accepted
    ensures Admissible(Collect(b, f, timestamp))
  {
  }
}
