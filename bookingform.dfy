/** The details form of the booking wizard (components/BookingForm.tsx): the
    react-hook-form rules of its fields, and the record `onFormSubmit` hands
    to the wizard. The two patterns are written out as predicates on strings. */
module BookingForm {
  import opened Wrappers
  import opened Strings
  import I18n
  import Services

  /** `\s` in a JavaScript regular expression. */
  predicate IsJsWhitespace(c: char)
  {
    c == '\t' || c == '\n' || c == '\U{000B}' || c == '\U{000C}' || c == '\r' || c == ' ' ||
    c == '\U{00A0}' || c == '\U{1680}' || ('\U{2000}' <= c <= '\U{200A}') ||
    c == '\U{2028}' || c == '\U{2029}' || c == '\U{202F}' || c == '\U{205F}' ||
    c == '\U{3000}' || c == '\U{FEFF}'
  }

  // ---------------------------------------------------------------- email

  /** `[^\s@]`. */
  predicate EmailChar(c: char)
  {
    !IsJsWhitespace(c) && c != '@'
  }

  /** A (possibly empty) run of `[^\s@]`. */
  predicate EmailRun(s: string)
  {
    forall k :: 0 <= k < |s| ==> EmailChar(s[k])
  }

  /** `/^[^\s@]+@[^\s@]+\.[^\s@]+$/`: the whole value is a non-empty run, '@',
      a non-empty run, '.', a non-empty run. */
  predicate IsValidEmail(s: string)
  {
    exists i, j :: 0 < i && i + 1 < j && j + 1 < |s| && s[i] == '@' && s[j] == '.' &&
      EmailRun(s[..i]) && EmailRun(s[i + 1..j]) && EmailRun(s[j + 1..])
  }

  /** A left-to-right reading of the same pattern: the text before the first
      '@' is a non-empty run, and the text after it is a run holding a '.'
      that is neither its first nor its last character. */
  predicate EmailCheck(s: string)
  {
    match IndexOf(s, "@")
    case None => false
    case Some(i) =>
      var domain := s[i + 1..];
      0 < i && EmailRun(s[..i]) && EmailRun(domain) && |domain| >= 3 && '.' in domain[1..|domain| - 1]
  }

  /** The reading agrees with the pattern on every string. */
  lemma EmailCheckIff(s: string)
    ensures IsValidEmail(s) <==> EmailCheck(s)
  {
    if IsValidEmail(s) {
      var i, j :| 0 < i && i + 1 < j && j + 1 < |s| && s[i] == '@' && s[j] == '.' &&
        EmailRun(s[..i]) && EmailRun(s[i + 1..j]) && EmailRun(s[j + 1..]);
      EmailPatternChecked(s, i, j);
    }
    if EmailCheck(s) {
      EmailCheckMatches(s);
    }
  }

  lemma {:induction false} EmailPatternChecked(s: string, i: nat, j: nat)
    requires 0 < i && i + 1 < j && j + 1 < |s| && s[i] == '@' && s[j] == '.'
    requires EmailRun(s[..i]) && EmailRun(s[i + 1..j]) && EmailRun(s[j + 1..])
    ensures IndexOf(s, "@") == Some(i)
    ensures EmailCheck(s)
  {
    OccursAtChar(s, '@', i);
    var r := IndexOf(s, "@");
    OccursAtChar(s, '@', r.value);
    var domain := s[i + 1..];
    forall k | 0 <= k < |domain|
      ensures EmailChar(domain[k])
    {
      if k < j - i - 1 {
        assert domain[k] == s[i + 1..j][k];
      } else if k > j - i - 1 {
        assert domain[k] == s[j + 1..][k - (j - i)];
      }
    }
    assert domain[1..|domain| - 1][j - i - 2] == '.';
  }

  lemma {:induction false} EmailCheckMatches(s: string)
    requires EmailCheck(s)
    ensures IsValidEmail(s)
  {
    var i := IndexOf(s, "@").value;
    OccursAtChar(s, '@', i);
    var domain := s[i + 1..];
    var m :| 0 <= m < |domain| - 2 && domain[1..|domain| - 1][m] == '.';
    var j := i + m + 2;
    assert s[j] == domain[m + 1];
    assert s[i + 1..j] == domain[..m + 1];
    assert s[j + 1..] == domain[m + 2..];
    assert EmailRun(s[i + 1..j]);
    assert EmailRun(s[j + 1..]);
  }

  /** A valid email holds one '@' and no whitespace at all. */
  lemma {:induction false} ValidEmailShape(s: string)
    requires IsValidEmail(s)
    ensures exists i :: 0 <= i < |s| && s[i] == '@' && forall k :: 0 <= k < |s| && s[k] == '@' ==> k == i
    ensures forall k :: 0 <= k < |s| ==> !IsJsWhitespace(s[k])
  {
    var i, j :| 0 < i && i + 1 < j && j + 1 < |s| && s[i] == '@' && s[j] == '.' &&
      EmailRun(s[..i]) && EmailRun(s[i + 1..j]) && EmailRun(s[j + 1..]);
    forall k | 0 <= k < |s| && k != i
      ensures EmailChar(s[k])
    {
      if k < i {
        assert s[k] == s[..i][k];
      } else if k < j {
        assert s[k] == s[i + 1..j][k - i - 1];
      } else if k > j {
        assert s[k] == s[j + 1..][k - j - 1];
      }
    }
  }

  /** "a@b.c" is valid; "a@b", "@b.c" and "a b@c.d" are not. */
  lemma EmailExamples()
    ensures IsValidEmail("a@b.c")
    ensures !IsValidEmail("a@b") && !IsValidEmail("@b.c") && !IsValidEmail("a b@c.d")
  {
    var s := "a@b.c";
    assert s[..1] == "a" && s[2..3] == "b" && s[4..] == "c";
    assert 0 < 1 && 1 + 1 < 3 && 3 + 1 < |s| && s[1] == '@' && s[3] == '.' &&
      EmailRun(s[..1]) && EmailRun(s[2..3]) && EmailRun(s[4..]);
    var t := "a b@c.d";
    if IsValidEmail(t) {
      ValidEmailShape(t);
      assert IsJsWhitespace(t[1]);
    }
  }

  // ---------------------------------------------------------------- phone

  /** The operator digit after the leading '1', as the character class
      `[0-2,5,6]` reads: the range 0-2, a literal ',', 5 and 6. */
  const OperatorCodesAsWritten: set<char> := {'0', '1', '2', ',', '5', '6'}

  /** The operator digits the class evidently means: 0, 1, 2, 5 and 6. */
  const OperatorCodes: set<char> := {'0', '1', '2', '5', '6'}

  /** `1[codes]\d{8}`: a ten-character national number. */
  predicate NationalNumber(s: string, codes: set<char>)
  {
    |s| == 10 && s[0] == '1' && s[1] in codes && AllDigits(s[2..])
  }

  /** `^(\+20|0)?1[codes]\d{8}$`. */
  predicate PhonePattern(s: string, codes: set<char>)
  {
    NationalNumber(s, codes)
    || (StartsWith(s, "0") && NationalNumber(s[1..], codes))
    || (StartsWith(s, "+20") && NationalNumber(s[3..], codes))
  }

  /** The phone rule as written, with the comma in its class. */
  predicate IsValidPhoneAsWritten(s: string)
  {
    PhonePattern(s, OperatorCodesAsWritten)
  }

  /** The phone rule as intended: an Egyptian mobile number. */
  predicate IsValidPhone(s: string)
  {
    PhonePattern(s, OperatorCodes)
  }

  /** The rule as written accepts "01,12345678", which no mobile number has. */
  lemma PhoneCommaAccepted()
    ensures IsValidPhoneAsWritten("01,12345678")
    ensures !IsValidPhone("01,12345678")
  {
    var s := "01,12345678";
    assert StartsWith(s, "0") by { assert s[..1] == "0"; }
    assert s[1..] == "1,12345678";
    assert s[1..][2..] == "12345678";
    NotStartsWithFirst(s, "+20");
  }

  /** The optional prefix, told apart by length: none, "0" or "+20". */
  predicate PhonePrefixOk(s: string)
  {
    |s| == 10 || (|s| == 11 && s[0] == '0') || (|s| == 13 && s[..3] == "+20")
  }

  lemma {:induction false} PhonePatternByLength(s: string, codes: set<char>)
    ensures PhonePattern(s, codes) <==> PhonePrefixOk(s) && NationalNumber(s[|s| - 10..], codes)
  {
    if |s| == 10 {
      assert s[|s| - 10..] == s;
    } else if |s| == 11 {
      assert s[1..] == s[|s| - 10..];
      assert s[..1] == [s[0]];
    } else if |s| == 13 {
      assert s[3..] == s[|s| - 10..];
    }
  }

  /** In a value the written rule accepts, a comma can stand only at the
      operator position. */
  lemma {:induction false} CommaOnlyAtOperator(s: string)
    requires PhonePrefixOk(s) && NationalNumber(s[|s| - 10..], OperatorCodesAsWritten)
    ensures ',' in s <==> s[|s| - 9] == ','
  {
    var p := |s| - 10;
    var n := s[p..];
    assert n[1] == s[p + 1];
    forall k | 0 <= k < |s| && k != p + 1
      ensures s[k] != ','
    {
      if k < p {
        if |s| == 13 {
          assert s[..3][k] == s[k];
        }
      } else if k == p {
        assert n[0] == s[k];
      } else {
        assert n[2..][k - p - 2] == s[k];
      }
    }
  }

  /** The intended rule is the written one minus every value holding a comma. */
  lemma PhoneRulesDifferOnlyByComma(s: string)
    ensures IsValidPhone(s) <==> IsValidPhoneAsWritten(s) && ',' !in s
  {
    PhonePatternByLength(s, OperatorCodes);
    PhonePatternByLength(s, OperatorCodesAsWritten);
    if PhonePrefixOk(s) && NationalNumber(s[|s| - 10..], OperatorCodesAsWritten) {
      CommaOnlyAtOperator(s);
    }
  }

  /** A valid phone is ten, eleven or thirteen characters long, and ends in a
      national number. */
  lemma {:induction false} ValidPhoneShape(s: string)
    requires IsValidPhone(s)
    ensures |s| == 10 || |s| == 11 || |s| == 13
    ensures NationalNumber(s[|s| - 10..], OperatorCodes)
  {
    if NationalNumber(s, OperatorCodes) {
      assert s[|s| - 10..] == s;
    } else if StartsWith(s, "0") && NationalNumber(s[1..], OperatorCodes) {
      assert s[|s| - 10..] == s[1..];
    } else {
      assert s[|s| - 10..] == s[3..];
    }
  }

  /** "0", then "1", an operator code and eight digits: a valid local number. */
  lemma {:induction false} LocalNumberValid(s: string)
    requires |s| == 11 && s[0] == '0' && s[1] == '1' && s[2] in OperatorCodes
    requires forall k :: 3 <= k < 11 ==> IsDigit(s[k])
    ensures IsValidPhone(s)
  {
    assert s[..1] == "0";
    assert forall k :: 0 <= k < 8 ==> s[1..][2..][k] == s[k + 3];
  }

  /** "+20", then "1", an operator code and eight digits: a valid
      international number. */
  lemma {:induction false} InternationalNumberValid(s: string)
    requires |s| == 13 && s[0] == '+' && s[1] == '2' && s[2] == '0' && s[3] == '1' && s[4] in OperatorCodes
    requires forall k :: 5 <= k < 13 ==> IsDigit(s[k])
    ensures IsValidPhone(s)
  {
    assert s[..3] == "+20";
    assert forall k :: 0 <= k < 8 ==> s[3..][2..][k] == s[k + 5];
  }

  /** "01012345678" is a valid local number. */
  lemma LocalPhoneExample(a: string)
    requires a == "01012345678"
    ensures IsValidPhone(a)
  {
    LocalNumberValid(a);
  }

  /** "+201512345678" is a valid international number. */
  lemma InternationalPhoneExample(b: string)
    requires b == "+201512345678"
    ensures IsValidPhone(b)
  {
    InternationalNumberValid(b);
  }

  /** "01312345678" is refused: 3 is no operator code. */
  lemma UnknownOperatorExample(c: string)
    requires c == "01312345678"
    ensures !IsValidPhone(c)
  {
    assert c[1..] == "1312345678";
    NotStartsWithFirst(c, "+20");
  }

  // ---------------------------------------------------------------- rules

  datatype FormData = FormData(fullName: string, phone: string, email: string, notes: string)

  /** The message key each rule reports, or None; `required` rejects the
      empty value and a pattern is only tried on a non-empty one. The form
      stores `t(key)` of these keys, which is `Translation.Translate` of the
      key in the active messages. */
  function NameError(v: string): (r: Option<string>)
    ensures r.Some? <==> v == ""
    ensures r.Some? ==> r.value == "booking.fullNameRequired"
  {
    if v == "" then Some("booking.fullNameRequired") else None
  }

  /** The phone rule for the operator class `codes`: the form registers
      `OperatorCodesAsWritten`, `OperatorCodes` is the rule it means. */
  function PhoneError(v: string, codes: set<char>): (r: Option<string>)
    ensures v == "" ==> r == Some("booking.phoneRequired")
    ensures v != "" ==> (r.None? <==> PhonePattern(v, codes))
    ensures v != "" && r.Some? ==> r.value == "booking.phoneInvalid"
  {
    if v == "" then Some("booking.phoneRequired")
    else if !PhonePattern(v, codes) then Some("booking.phoneInvalid")
    else None
  }

  function EmailError(v: string): (r: Option<string>)
    ensures v == "" ==> r == Some("booking.emailRequired")
    ensures v != "" ==> (r.None? <==> IsValidEmail(v))
    ensures v != "" && r.Some? ==> r.value == "booking.emailInvalid"
  {
    if v == "" then Some("booking.emailRequired")
    else if !IsValidEmail(v) then Some("booking.emailInvalid")
    else None
  }

  /** The message key of each field's error, or None. */
  datatype Errors = Errors(fullName: Option<string>, phone: Option<string>, email: Option<string>)

  /** The errors react-hook-form reports; `notes` has no rule. */
  function Validate(data: FormData, codes: set<char>): Errors
  {
    Errors(NameError(data.fullName), PhoneError(data.phone, codes), EmailError(data.email))
  }

  predicate Accepted(data: FormData, codes: set<char>)
  {
    Validate(data, codes) == Errors(None, None, None)
  }

  /** The form is accepted exactly when the name is non-empty and the phone
      and email match their patterns, whatever the notes say. */
  lemma AcceptedIff(data: FormData, codes: set<char>, otherNotes: string)
    ensures Accepted(data, codes) <==> data.fullName != "" && PhonePattern(data.phone, codes) && IsValidEmail(data.email)
    ensures Accepted(data, codes) == Accepted(data.(notes := otherNotes), codes)
  {
    if data.phone == "" {
      assert !NationalNumber("", codes);
      assert !PhonePattern(data.phone, codes);
    }
  }

  /** The form as written submits a phone holding a comma. */
  lemma FormAcceptsCommaPhone(data: FormData)
    requires data == FormData("a", "01,12345678", "a@b.c", "")
    ensures Accepted(data, OperatorCodesAsWritten)
    ensures !Accepted(data, OperatorCodes)
  {
    PhoneCommaAccepted();
    EmailExamples();
    AcceptedIff(data, OperatorCodesAsWritten, "");
    AcceptedIff(data, OperatorCodes, "");
  }

  /** The form as intended accepts what the form as written accepts, minus
      the phones holding a comma. */
  lemma IntendedFormDiffersOnlyByComma(data: FormData)
    ensures Accepted(data, OperatorCodes) <==> Accepted(data, OperatorCodesAsWritten) && ',' !in data.phone
  {
    AcceptedIff(data, OperatorCodesAsWritten, "");
    AcceptedIff(data, OperatorCodes, "");
    PhoneRulesDifferOnlyByComma(data.phone);
  }

  // ---------------------------------------------------------------- submit

  /** The wizard's draft: the chosen service id, date ("yyyy-MM-dd", or none
      yet) and time label. */
  datatype Draft = Draft(service: string, date: Option<string>, time: string)

  /** The record `onFormSubmit` passes on: the form fields plus the service,
      date and time of the draft. */
  datatype Submission = Submission(
    fullName: string, phone: string, email: string, notes: string,
    service: string, date: string, time: string)

  /** `onFormSubmit`. `localeDate` stands for `toLocaleDateString` in the
      component's locale, which is not part of this model. */
  function OnFormSubmit(data: FormData, draft: Draft, locale: I18n.Locale, localeDate: string -> string): (r: Submission)
    ensures FormPart(r) == data
    ensures r.service == Services.ServiceName(locale, draft.service)
    ensures r.date == if draft.date.None? then "" else localeDate(draft.date.value)
    ensures r.time == draft.time
  {
    Submission(data.fullName, data.phone, data.email, data.notes,
      Services.ServiceName(locale, draft.service),
      match draft.date case None => "" case Some(d) => localeDate(d),
      draft.time)
  }

  /** The form fields carried by a submission. */
  function FormPart(s: Submission): FormData
  {
    FormData(s.fullName, s.phone, s.email, s.notes)
  }

  /** What pressing submit does: the rules reject the form with their errors,
      or `onFormSubmit` runs. */
  datatype FormOutcome = Rejected(errors: Errors) | Submitted(submission: Submission)

  function HandleSubmit(data: FormData, codes: set<char>, draft: Draft, locale: I18n.Locale, localeDate: string -> string): (r: FormOutcome)
    ensures r.Submitted? <==> Accepted(data, codes)
    ensures r.Rejected? ==> r.errors == Validate(data, codes)
    ensures r.Submitted? ==> r.submission == OnFormSubmit(data, draft, locale, localeDate)
  {
    if Accepted(data, codes) then Submitted(OnFormSubmit(data, draft, locale, localeDate))
    else Rejected(Validate(data, codes))
  }

  /** Whether the back and submit buttons are disabled. */
  datatype Buttons = Buttons(backDisabled: bool, submitDisabled: bool)

  function FormButtons(isSubmitting: bool): (r: Buttons)
    ensures r.backDisabled == isSubmitting && r.submitDisabled == isSubmitting
  {
    Buttons(isSubmitting, isSubmitting)
  }
}
