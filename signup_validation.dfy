/** The pure part of static/js/signup.js: the ordered checks of validateForm
    and the character filter that the phone field's `input` handler applies. */
module SignupValidation {
  import opened Wrappers
  import opened Text

  /** The raw values of the signup form's controls, as the page reads them. */
  datatype Form = Form(
    fullName: string,
    email: string,
    phone: string,
    attendanceMode: string,
    church: string,
    specialNeeds: string,
    agreeTerms: bool,
    newsletter: bool)

  /** The five rules of validateForm, one constructor per rule, in checking order. */
  datatype Rule = NameTooShort | InvalidEmail | InvalidPhone | MissingAttendanceMode | TermsNotAccepted

  /** Position of a rule in validateForm's checking order. */
  function Rank(rule: Rule): (n: nat) {
    match rule
    case NameTooShort => 0
    case InvalidEmail => 1
    case InvalidPhone => 2
    case MissingAttendanceMode => 3
    case TermsNotAccepted => 4
  }

  /** The text showError puts in the form's error box for each rule. */
  function Message(rule: Rule): (m: string)
    ensures m != ""
  {
    match rule
    case NameTooShort => "Please enter your full name"
    case InvalidEmail => "Please enter a valid email address"
    case InvalidPhone => "Please enter a valid phone number"
    case MissingAttendanceMode => "Please select an attendance mode"
    case TermsNotAccepted => "You must agree to the terms and conditions"
  }

  // ---------------------------------------------------------------------
  // Name

  /** `fullName.length < 3` fails, on the trimmed value, counted in UTF-16 units. */
  predicate NameOk(fullName: string) {
    Utf16Length(fullName) >= 3
  }

  // ---------------------------------------------------------------------
  // Email: /^[^\s@]+@[^\s@]+\.[^\s@]+$/

  /** The class [^\s@]. */
  predicate EmailChar(c: char) {
    !IsJsSpace(c) && c != '@'
  }

  predicate AllEmailChars(t: string) {
    forall k :: 0 <= k < |t| ==> EmailChar(t[k])
  }

  /** The regular expression matches with its `@` at `i` and its `\.` at `j`. */
  predicate EmailSplit(s: string, i: int, j: int) {
    0 < i && i + 1 < j < |s| - 1
    && s[i] == '@' && s[j] == '.'
    && AllEmailChars(s[..i]) && AllEmailChars(s[i + 1..j]) && AllEmailChars(s[j + 1..])
  }

  /** The email pattern matches `s`: some choice of the `@` and of the dot
      splits it into three non-empty runs of [^\s@]. */
  predicate EmailMatches(s: string) {
    exists i, j | 0 <= i < |s| && 0 <= j < |s| :: EmailSplit(s, i, j)
  }

  /** No character other than the one at `i` is an `@`. */
  predicate OnlyAtSignAt(s: string, i: int) {
    forall k :: 0 <= k < |s| && k != i && s[k] == '@' ==> false
  }

  /** There is a dot strictly inside `s[lo..hi]`: not its first, not its last character. */
  predicate InnerDot(s: string, lo: int, hi: int) {
    exists j | lo < j < hi - 1 && 0 <= j < |s| :: s[j] == '.'
  }

  /** The shape of an accepted address, stated without the regular
      expression: no whitespace, exactly one `@`, a non-empty part before it,
      and a dot that is neither the first nor the last character after it. */
  predicate EmailShape(s: string) {
    NoSpace(s)
    && exists i | 0 < i < |s| :: s[i] == '@' && OnlyAtSignAt(s, i) && InnerDot(s, i + 1, |s|)
  }

  lemma EmailMatchesIsShape(s: string)
    ensures EmailMatches(s) <==> EmailShape(s)
  {
    if EmailMatches(s) {
      var i, j :| 0 <= i < |s| && 0 <= j < |s| && EmailSplit(s, i, j);
      forall k | 0 <= k < |s| ensures !IsJsSpace(s[k]) && (k != i ==> s[k] != '@') {
        if k < i {
          assert s[k] == s[..i][k];
        } else if i < k < j {
          assert s[k] == s[i + 1..j][k - i - 1];
        } else if j < k {
          assert s[k] == s[j + 1..][k - j - 1];
        }
      }
      assert InnerDot(s, i + 1, |s|) by { assert s[j] == '.'; }
      assert OnlyAtSignAt(s, i);
    }
    if EmailShape(s) {
      var i :| 0 < i < |s| && s[i] == '@' && OnlyAtSignAt(s, i) && InnerDot(s, i + 1, |s|);
      var j :| i + 1 < j < |s| - 1 && 0 <= j < |s| && s[j] == '.';
      assert forall k :: 0 <= k < |s| && k != i ==> EmailChar(s[k]);
      assert AllEmailChars(s[..i]);
      var domain, tld := s[i + 1..j], s[j + 1..];
      forall k | 0 <= k < |domain| ensures EmailChar(domain[k]) {
        assert domain[k] == s[i + 1 + k];
      }
      forall k | 0 <= k < |tld| ensures EmailChar(tld[k]) {
        assert tld[k] == s[j + 1 + k];
      }
      assert EmailSplit(s, i, j);
    }
  }

  /** The three examples: `a@b.c` passes, `a@b` and `a@.c` do not. */
  lemma EmailExamples()
    ensures EmailMatches("a@b.c")
    ensures !EmailMatches("a@b")
    ensures !EmailMatches("a@.c")
  {
    var s := "a@b.c";
    assert AllEmailChars(s[..1]) && AllEmailChars(s[2..3]) && AllEmailChars(s[4..]);
    assert EmailSplit(s, 1, 3);
  }

  // ---------------------------------------------------------------------
  // Phone: /^[+]?[\d\s-()]+$/ and `phone.length < 10`

  /** The class [\d\s-()]: the `-` between \s and `(` is a literal hyphen. */
  predicate PhoneClassChar(c: char) {
    IsAsciiDigit(c) || IsJsSpace(c) || c == '-' || c == '(' || c == ')'
  }

  predicate AllPhoneClass(t: string) {
    forall k :: 0 <= k < |t| ==> PhoneClassChar(t[k])
  }

  /** The phone pattern matches: either without the optional `+` or with it
      as the first character, a non-empty run of class characters fills the rest. */
  predicate PhoneMatches(s: string) {
    (|s| > 0 && AllPhoneClass(s)) || (|s| > 1 && s[0] == '+' && AllPhoneClass(s[1..]))
  }

  predicate PhoneOk(phone: string) {
    PhoneMatches(phone) && Utf16Length(phone) >= 10
  }

  /** The phone rule without the regular expression: at least ten characters
      (separators included), the first a `+` or a class character, every
      later one a class character; so a `+` anywhere but first fails. */
  lemma PhoneOkIsShape(s: string)
    ensures PhoneOk(s) <==>
      |s| >= 10 && (s[0] == '+' || PhoneClassChar(s[0]))
      && forall k :: 0 < k < |s| ==> PhoneClassChar(s[k])
  {
    if PhoneMatches(s) {
      forall k | 0 <= k < |s| ensures s[k] as int < 0x10000 {
        if k > 0 && s[0] == '+' && !AllPhoneClass(s) {
          assert s[k] == s[1..][k - 1];
        }
      }
      forall k | 0 < k < |s| ensures PhoneClassChar(s[k]) {
        if !AllPhoneClass(s) {
          assert s[k] == s[1..][k - 1];
        }
      }
    }
    if |s| >= 10 && (s[0] == '+' || PhoneClassChar(s[0])) && forall k :: 0 < k < |s| ==> PhoneClassChar(s[k]) {
      if s[0] == '+' {
        assert AllPhoneClass(s[1..]) by {
          forall k | 0 <= k < |s| - 1 ensures PhoneClassChar(s[1..][k]) {
            assert s[1..][k] == s[k + 1];
          }
        }
      }
      assert PhoneMatches(s);
      assert forall k :: 0 <= k < |s| ==> s[k] as int < 0x10000;
    }
  }

  /** An international number written with spaces passes. */
  lemma PhoneAcceptsSpacedNumber()
    ensures PhoneOk("+234 801 234 5678")
  {
    var s := "+234 801 234 5678";
    var rest := s[1..];
    forall k | 0 <= k < |rest| ensures PhoneClassChar(rest[k]) {
      assert IsAsciiDigit(rest[k]) || rest[k] == ' ';
    }
    assert PhoneMatches(s);
  }

  /** Five digits are too few. */
  lemma PhoneRejectsShortNumber()
    ensures !PhoneOk("12345")
  {
    PhoneOkIsShape("12345");
  }

  /** A `+` after the first character fails, however long the number. */
  lemma PhoneRejectsInnerPlus(s: string, k: int)
    requires 0 < k < |s| && s[k] == '+'
    ensures !PhoneOk(s)
  {
    assert !PhoneClassChar(s[k]);
    PhoneOkIsShape(s);
  }

  // ---------------------------------------------------------------------
  // validateForm

  /** Whether `f` passes `rule`; the text fields are trimmed first, the
      attendance-mode value is not. */
  predicate Passes(f: Form, rule: Rule) {
    match rule
    case NameTooShort => NameOk(Trim(f.fullName))
    case InvalidEmail => EmailMatches(Trim(f.email))
    case InvalidPhone => PhoneOk(Trim(f.phone))
    case MissingAttendanceMode => f.attendanceMode != ""
    case TermsNotAccepted => f.agreeTerms
  }

  /** The rule whose message validateForm shows, or None when it returns true:
      the first rule in checking order that the form fails. */
  function FirstFailure(f: Form): (r: Option<Rule>)
    ensures r.None? <==> forall rule :: Passes(f, rule)
    ensures r.Some? ==> !Passes(f, r.value)
  {
    if !NameOk(Trim(f.fullName)) then assert !Passes(f, NameTooShort); Some(NameTooShort)
    else if !EmailMatches(Trim(f.email)) then assert !Passes(f, InvalidEmail); Some(InvalidEmail)
    else if !PhoneOk(Trim(f.phone)) then assert !Passes(f, InvalidPhone); Some(InvalidPhone)
    else if f.attendanceMode == "" then assert !Passes(f, MissingAttendanceMode); Some(MissingAttendanceMode)
    else if !f.agreeTerms then assert !Passes(f, TermsNotAccepted); Some(TermsNotAccepted)
    else None
  }

  /** The reported rule is the first failing one: the form passes every
      rule that is checked before it. */
  lemma FirstFailureIsFirst(f: Form, rule: Rule, earlier: Rule)
    requires FirstFailure(f) == Some(rule)
    requires Rank(earlier) < Rank(rule)
    ensures Passes(f, earlier)
  {
    match earlier
    case NameTooShort =>
    case InvalidEmail =>
    case InvalidPhone =>
    case MissingAttendanceMode =>
    case TermsNotAccepted =>
  }

  /** A failing earlier rule hides every later one: whatever the other
      fields hold, a too-short name is what is reported. */
  lemma ShortNameWins(f: Form)
    requires Utf16Length(Trim(f.fullName)) < 3
    ensures FirstFailure(f) == Some(NameTooShort)
  {
  }

  // ---------------------------------------------------------------------
  // The phone field's input filter: value.replace(/[^\d+\s()-]/g, '')

  predicate PhoneInputChar(c: char) {
    IsAsciiDigit(c) || c == '+' || IsJsSpace(c) || c == '(' || c == ')' || c == '-'
  }

  function SanitisePhone(s: string): (r: string)
  {
    Filter(s, PhoneInputChar)
  }

  /** The filter keeps exactly the allowed characters: every one of them as
      often as it occurs, in order (it works piece by piece), and nothing else. */
  lemma SanitisePhoneSpec(s: string, t: string, c: char)
    ensures forall k :: 0 <= k < |SanitisePhone(s)| ==> PhoneInputChar(SanitisePhone(s)[k])
    ensures multiset(SanitisePhone(s))[c] == if PhoneInputChar(c) then multiset(s)[c] else 0
    ensures SanitisePhone(s + t) == SanitisePhone(s) + SanitisePhone(t)
    ensures SanitisePhone(SanitisePhone(s)) == SanitisePhone(s)
  {
    FilterCounts(s, PhoneInputChar, c);
    FilterConcat(s, t, PhoneInputChar);
    FilterIdempotent(s, PhoneInputChar);
  }

  /** A value the phone rule accepts is left alone by the filter. */
  lemma ValidPhoneSurvivesSanitiser(s: string)
    requires PhoneMatches(s)
    ensures SanitisePhone(s) == s
  {
    forall k | 0 <= k < |s| ensures PhoneInputChar(s[k]) {
      if k > 0 && !AllPhoneClass(s) {
        assert s[k] == s[1..][k - 1];
      }
    }
    FilterKeepsAll(s, PhoneInputChar);
  }

  /** The filter lets `+` through anywhere, the rule only as the first
      character: a value made only of allowed characters, with a `+` after
      its first position, survives the filter and is still rejected. */
  lemma SanitisedPhoneMayFail(s: string, k: int)
    requires forall j :: 0 <= j < |s| ==> PhoneInputChar(s[j])
    requires 0 < k < |s| && s[k] == '+'
    ensures SanitisePhone(s) == s
    ensures !PhoneMatches(s)
  {
    FilterKeepsAll(s, PhoneInputChar);
    assert !PhoneClassChar(s[k]);
  }
}
