/** The sign-in / sign-up form: field validation in a fixed order with the first failure
    reported, the request each mode sends, and the navigation after a successful login. */
module Auth {
  import opened Common
  import opened Text

  /** The form's fields, all text. */
  datatype AuthForm = AuthForm(firstName: string, lastName: string, email: string, contactNumber: string, password: string)

  const EmptyForm := AuthForm("", "", "", "", "")

  /** The country codes offered in front of the contact number; "+63" is preselected. */
  const CountryCodes := ["+63", "+1", "+44"]
  const DefaultCountryCode := "+63"

  const InvalidEmail := "Please enter a valid email address."
  const MissingPassword := "Please enter your password."
  const ShortFirstName := "First Name must be at least 2 characters."
  const ShortLastName := "Last Name must be at least 2 characters."
  const ContactNotNumeric := "Contact number should only contain numbers."
  const ShortPassword := "Password must be more than 6 characters."
  const WeakPassword := "Password must contain letters, numbers, and special characters (!@#$%^&*)."

  /** Reads a field by its input name. */
  function Field(f: AuthForm, name: string): Option<string> {
    match name
    case "firstName" => Some(f.firstName)
    case "lastName" => Some(f.lastName)
    case "email" => Some(f.email)
    case "contactNumber" => Some(f.contactNumber)
    case "password" => Some(f.password)
    case _ => None
  }

  /** `handleChange`: the input named `name` takes the typed value; the other fields keep theirs. */
  function HandleChange(f: AuthForm, name: string, value: string): (r: AuthForm)
    ensures Field(f, name).Some? ==> Field(r, name) == Some(value)
    ensures forall other :: other != name ==> Field(r, other) == Field(f, other)
  {
    match name
    case "firstName" => f.(firstName := value)
    case "lastName" => f.(lastName := value)
    case "email" => f.(email := value)
    case "contactNumber" => f.(contactNumber := value)
    case "password" => f.(password := value)
    case _ => f
  }

  // ---------------------------------------------------------------------------
  // The e-mail check
  // ---------------------------------------------------------------------------

  /** `[^\s@]`: neither white space nor "@". */
  predicate EmailChar(c: char) { !IsWhiteSpace(c) && c != '@' }

  predicate AllEmailChars(s: string) { forall i :: 0 <= i < |s| ==> EmailChar(s[i]) }

  /** The e-mail pattern read literally: a non-empty run, "@", a non-empty run, ".", a non-empty run,
      every run made of characters that are neither white space nor "@", covering the whole text. */
  ghost predicate EmailPatternMatches(s: string) {
    exists i, j :: 0 < i && i + 1 < j < |s| - 1 && s[i] == '@' && s[j] == '.'
      && AllEmailChars(s[..i]) && AllEmailChars(s[i + 1..j]) && AllEmailChars(s[j + 1..])
  }

  /** The e-mail check as it decides: no white space, a single "@" that is not first,
      and a "." in the domain that is neither its first nor its last character. */
  predicate IsValidEmail(s: string)
    ensures IsValidEmail(s) ==> |s| >= 5 && '@' in s && forall k :: 0 <= k < |s| ==> !IsWhiteSpace(s[k])
  {
    var at := IndexOf(s, '@');
    && at > 0
    && (forall k :: 0 <= k < |s| ==> !IsWhiteSpace(s[k]) && (s[k] == '@' ==> k == at))
    && exists j :: at + 1 < j < |s| - 1 && s[j] == '.'
  }

  /** A slice is made of e-mail characters exactly when each of its positions holds one. */
  lemma EmailCharsOfSlice(s: string, a: int, b: int)
    requires 0 <= a <= b <= |s|
    ensures AllEmailChars(s[a..b]) <==> forall k :: a <= k < b ==> EmailChar(s[k])
  {
    assert forall k :: a <= k < b ==> s[a..b][k - a] == s[k];
  }

  /** What the check accepts, the pattern matches. */
  lemma ValidEmailMatches(s: string)
    requires IsValidEmail(s)
    ensures EmailPatternMatches(s)
  {
    var at := IndexOf(s, '@');
    var j :| at + 1 < j < |s| - 1 && s[j] == '.';
    EmailCharsOfSlice(s, 0, at);
    EmailCharsOfSlice(s, at + 1, j);
    EmailCharsOfSlice(s, j + 1, |s|);
    assert s[..at] == s[0..at] && s[j + 1..] == s[j + 1..|s|];
  }

  /** The three runs of a match cover every position except the "@" and the ".". */
  lemma EmailRuns(s: string, i: int, j: int)
    requires 0 < i && i + 1 < j < |s| - 1
    requires AllEmailChars(s[..i]) && AllEmailChars(s[i + 1..j]) && AllEmailChars(s[j + 1..])
    ensures forall k :: 0 <= k < |s| && k != i && k != j ==> EmailChar(s[k])
  {
    assert s[..i] == s[0..i] && s[j + 1..] == s[j + 1..|s|];
    EmailCharsOfSlice(s, 0, i);
    EmailCharsOfSlice(s, i + 1, j);
    EmailCharsOfSlice(s, j + 1, |s|);
  }

  /** What the pattern matches, the check accepts. */
  lemma MatchIsValidEmail(s: string)
    requires EmailPatternMatches(s)
    ensures IsValidEmail(s)
  {
    var i, j :| 0 < i && i + 1 < j < |s| - 1 && s[i] == '@' && s[j] == '.'
      && AllEmailChars(s[..i]) && AllEmailChars(s[i + 1..j]) && AllEmailChars(s[j + 1..]);
    EmailRuns(s, i, j);
    var at := IndexOf(s, '@');
    assert 0 <= at <= i && s[at] == '@';
    assert at == i;
    forall k | 0 <= k < |s|
      ensures !IsWhiteSpace(s[k]) && (s[k] == '@' ==> k == at)
    {
      if k != i && k != j {
        assert EmailChar(s[k]);
      }
    }
  }

  /** The check accepts exactly the texts the pattern matches. */
  lemma ValidEmailIsPattern(s: string)
    ensures IsValidEmail(s) <==> EmailPatternMatches(s)
  {
    if IsValidEmail(s) {
      ValidEmailMatches(s);
    }
    if EmailPatternMatches(s) {
      MatchIsValidEmail(s);
    }
  }

  // ---------------------------------------------------------------------------
  // The password check
  // ---------------------------------------------------------------------------

  predicate IsPasswordSpecial(c: char) {
    c == '!' || c == '@' || c == '#' || c == '$' || c == '%' || c == '^' || c == '&' || c == '*'
  }

  /** A look-ahead `(?=.*[class])` at the start: a character of the class occurs before the first
      line terminator, since `.` does not match line terminators. */
  predicate LookaheadFinds(s: string, inClass: char -> bool) {
    exists k :: 0 <= k < |s| && inClass(s[k]) && forall m :: 0 <= m < k ==> !IsLineTerminator(s[m])
  }

  /** The strict password pattern: a letter, a digit and one of `!@#$%^&*`, each on the first line. */
  predicate IsStrongPassword(s: string)
    ensures IsStrongPassword(s) ==> |s| >= 3
    ensures IsStrongPassword(s) ==> exists i :: 0 <= i < |s| && IsAsciiLetter(s[i])
    ensures IsStrongPassword(s) ==> exists i :: 0 <= i < |s| && IsAsciiDigit(s[i])
    ensures IsStrongPassword(s) ==> exists i :: 0 <= i < |s| && IsPasswordSpecial(s[i])
  {
    LookaheadFinds(s, IsAsciiLetter) && LookaheadFinds(s, IsAsciiDigit) && LookaheadFinds(s, IsPasswordSpecial)
  }

  /** On a single line, the pattern asks only that each kind of character occurs somewhere. */
  lemma StrongPasswordOnOneLine(s: string)
    requires forall i :: 0 <= i < |s| ==> !IsLineTerminator(s[i])
    ensures IsStrongPassword(s) <==>
      (exists i :: 0 <= i < |s| && IsAsciiLetter(s[i]))
      && (exists i :: 0 <= i < |s| && IsAsciiDigit(s[i]))
      && (exists i :: 0 <= i < |s| && IsPasswordSpecial(s[i]))
  {
  }

  /** Characters after a line break do not count. */
  lemma LineBreakHidesRest()
    ensures !IsStrongPassword("abcdefg\U{2028}1!")
  {
    var s := "abcdefg\U{2028}1!";
    assert s[7] == '\U{2028}';
    forall k | 0 <= k < |s| && IsAsciiDigit(s[k])
      ensures exists m :: 0 <= m < k && IsLineTerminator(s[m])
    {
      assert k == 8;
    }
  }

  // ---------------------------------------------------------------------------
  // Validation
  // ---------------------------------------------------------------------------

  /** Every message the form can show. */
  const Messages := [InvalidEmail, MissingPassword, ShortFirstName, ShortLastName, ContactNotNumeric, ShortPassword, WeakPassword]

  /** `validateForm`: the message of the first check that fails, or `None` when the form may be sent.
      Sign-in reports only the e-mail and password-presence messages; any accepted form has a valid
      e-mail and a password. */
  function ValidateForm(f: AuthForm, isLogin: bool): (error: Option<string>)
    ensures error.Some? ==> error.value in Messages
    ensures isLogin && error.Some? ==> error.value == InvalidEmail || error.value == MissingPassword
    ensures error.None? ==> IsValidEmail(f.email) && f.password != ""
  {
    if !IsValidEmail(f.email) then Some(InvalidEmail)
    else if f.password == "" then Some(MissingPassword)
    else if isLogin then None
    else if |Trim(f.firstName)| < 2 then Some(ShortFirstName)
    else if |Trim(f.lastName)| < 2 then Some(ShortLastName)
    else if !AllDigits(f.contactNumber) then Some(ContactNotNumeric)
    else if |f.password| <= 6 then Some(ShortPassword)
    else if !IsStrongPassword(f.password) then Some(WeakPassword)
    else None
  }

  /** One validation rule: whether the form passes it, and the message shown when it does not. */
  datatype Check = Check(passes: bool, message: string)

  /** The rules every mode applies, in order. */
  function CommonChecks(f: AuthForm): seq<Check> {
    [Check(IsValidEmail(f.email), InvalidEmail), Check(f.password != "", MissingPassword)]
  }

  /** The further rules of sign-up, in order. */
  function SignupChecks(f: AuthForm): seq<Check> {
    [ Check(|Trim(f.firstName)| >= 2, ShortFirstName), Check(|Trim(f.lastName)| >= 2, ShortLastName),
      Check(AllDigits(f.contactNumber), ContactNotNumeric), Check(|f.password| > 6, ShortPassword),
      Check(IsStrongPassword(f.password), WeakPassword) ]
  }

  /** The rules of each mode, in the order they are applied. */
  function Checks(f: AuthForm, isLogin: bool): seq<Check> {
    CommonChecks(f) + if isLogin then [] else SignupChecks(f)
  }

  /** The message of the first failing rule. */
  function FirstFailure(checks: seq<Check>): Option<string> {
    if checks == [] then None
    else if !checks[0].passes then Some(checks[0].message)
    else FirstFailure(checks[1..])
  }

  /** `FirstFailure` accepts when every rule passes, and otherwise reports a failing rule all of whose
      predecessors pass. */
  lemma {:induction false} FirstFailureIsFirst(checks: seq<Check>)
    ensures FirstFailure(checks).None? <==> forall i :: 0 <= i < |checks| ==> checks[i].passes
    ensures FirstFailure(checks).Some? ==>
      exists i :: 0 <= i < |checks| && !checks[i].passes && FirstFailure(checks).value == checks[i].message
                  && forall j :: 0 <= j < i ==> checks[j].passes
  {
    if checks != [] && checks[0].passes {
      var rest := checks[1..];
      FirstFailureIsFirst(rest);
      assert forall i :: 1 <= i < |checks| ==> checks[i] == rest[i - 1];
      if FirstFailure(rest).Some? {
        var i :| 0 <= i < |rest| && !rest[i].passes && FirstFailure(rest).value == rest[i].message
                 && forall j :: 0 <= j < i ==> rest[j].passes;
        assert !checks[i + 1].passes && forall j :: 0 <= j < i + 1 ==> checks[j].passes;
      }
    }
  }

  lemma FirstFailureCons(c: Check, rest: seq<Check>)
    ensures FirstFailure([c] + rest) == if c.passes then FirstFailure(rest) else Some(c.message)
  {
    assert ([c] + rest)[1..] == rest;
  }

  /** Rules in front of others are consulted first: a failure among them wins, otherwise the rest decide. */
  lemma {:induction false} FirstFailureConcat(front: seq<Check>, rest: seq<Check>)
    ensures FirstFailure(front + rest) == if FirstFailure(front).Some? then FirstFailure(front) else FirstFailure(rest)
  {
    if front != [] {
      assert (front + rest)[1..] == front[1..] + rest;
      FirstFailureConcat(front[1..], rest);
    } else {
      assert front + rest == rest;
    }
  }

  /** The sign-up rules report the first of them that fails. */
  lemma SignupChainIsFirstFailure(first: bool, last: bool, contact: bool, length: bool, strength: bool)
    ensures (if !first then Some(ShortFirstName)
            else if !last then Some(ShortLastName)
            else if !contact then Some(ContactNotNumeric)
            else if !length then Some(ShortPassword)
            else if !strength then Some(WeakPassword)
            else None)
         == FirstFailure([ Check(first, ShortFirstName), Check(last, ShortLastName), Check(contact, ContactNotNumeric),
                           Check(length, ShortPassword), Check(strength, WeakPassword) ])
  {
    var c0, c1, c2 := Check(first, ShortFirstName), Check(last, ShortLastName), Check(contact, ContactNotNumeric);
    var c3, c4 := Check(length, ShortPassword), Check(strength, WeakPassword);
    var t4 := [c4] + [];
    var t3 := [c3] + t4;
    var t2 := [c2] + t3;
    var t1 := [c1] + t2;
    FirstFailureCons(c4, []);
    FirstFailureCons(c3, t4);
    FirstFailureCons(c2, t3);
    FirstFailureCons(c1, t2);
    FirstFailureCons(c0, t1);
    assert [c0] + t1 == [c0, c1, c2, c3, c4];
  }

  /** The validation reports exactly the first failing rule of the mode, and accepts when all pass. */
  lemma ChainIsFirstFailure(email: bool, password: bool, isLogin: bool, first: bool, last: bool, contact: bool, length: bool, strength: bool)
    ensures (if !email then Some(InvalidEmail)
            else if !password then Some(MissingPassword)
            else if isLogin then None
            else if !first then Some(ShortFirstName)
            else if !last then Some(ShortLastName)
            else if !contact then Some(ContactNotNumeric)
            else if !length then Some(ShortPassword)
            else if !strength then Some(WeakPassword)
            else None)
         == FirstFailure([Check(email, InvalidEmail), Check(password, MissingPassword)]
                         + if isLogin then [] else
                           [ Check(first, ShortFirstName), Check(last, ShortLastName), Check(contact, ContactNotNumeric),
                             Check(length, ShortPassword), Check(strength, WeakPassword) ])
  {
    var ce, cp := Check(email, InvalidEmail), Check(password, MissingPassword);
    var signup := [ Check(first, ShortFirstName), Check(last, ShortLastName), Check(contact, ContactNotNumeric),
                    Check(length, ShortPassword), Check(strength, WeakPassword) ];
    FirstFailureConcat([ce, cp], if isLogin then [] else signup);
    FirstFailureCons(cp, []);
    FirstFailureCons(ce, [cp] + []);
    assert [ce] + ([cp] + []) == [ce, cp];
    SignupChainIsFirstFailure(first, last, contact, length, strength);
  }

  lemma ValidateFormReportsFirstFailure(f: AuthForm, isLogin: bool)
    ensures ValidateForm(f, isLogin) == FirstFailure(Checks(f, isLogin))
  {
    ChainIsFirstFailure(IsValidEmail(f.email), f.password != "", isLogin, |Trim(f.firstName)| >= 2, |Trim(f.lastName)| >= 2,
      AllDigits(f.contactNumber), |f.password| > 6, IsStrongPassword(f.password));
  }

  /** Signing in asks only for a valid e-mail and a non-empty password. */
  lemma LoginAcceptance(f: AuthForm)
    ensures ValidateForm(f, true).None? <==> IsValidEmail(f.email) && f.password != ""
  {
  }

  /** What an accepted sign-up form satisfies: two-character names after trimming, a numeric
      contact number, and a password of at least seven characters with a letter, a digit and a special. */
  lemma SignupAcceptance(f: AuthForm)
    ensures ValidateForm(f, false).None? <==>
      && IsValidEmail(f.email)
      && |Trim(f.firstName)| >= 2 && |Trim(f.lastName)| >= 2
      && AllDigits(f.contactNumber)
      && |f.password| >= 7 && IsStrongPassword(f.password)
  {
  }

  /** Every form accepted for sign-up would also be accepted for sign-in. */
  lemma SignupStricterThanLogin(f: AuthForm)
    ensures ValidateForm(f, false).None? ==> ValidateForm(f, true).None?
  {
  }

  // ---------------------------------------------------------------------------
  // Submission
  // ---------------------------------------------------------------------------

  /** The bodies of `POST /auth/login` and `POST /auth/register`. */
  datatype AuthRequest =
    | LoginRequest(email: string, password: string)
    | RegisterRequest(firstName: string, lastName: string, email: string, contactNumber: string, password: string)

  /** `handleSubmit`: the validation message, or the request of the current mode. Signing up sends
      the contact number with the selected country code in front. */
  function Submit(f: AuthForm, isLogin: bool, countryCode: string): (r: Result<AuthRequest>)
    ensures r.Err? <==> ValidateForm(f, isLogin).Some?
    ensures r.Err? ==> r.message == ValidateForm(f, isLogin).value
    ensures r.Ok? ==> r.value.email == f.email && r.value.password == f.password
    ensures r.Ok? ==> (r.value.LoginRequest? <==> isLogin)
    ensures r.Ok? && !isLogin ==> AllDigits(f.contactNumber) && r.value.contactNumber == countryCode + f.contactNumber
    ensures r.Ok? && !isLogin ==> r.value.firstName == f.firstName && r.value.lastName == f.lastName
  {
    match ValidateForm(f, isLogin)
    case Some(message) => Err(message)
    case None =>
      if isLogin then Ok(LoginRequest(f.email, f.password))
      else Ok(RegisterRequest(f.firstName, f.lastName, f.email, countryCode + f.contactNumber, f.password))
  }

  /** Splits a stored contact number back into the offered country code it starts with and the rest. */
  function SplitContact(full: string): (r: Option<(string, string)>)
    ensures r.Some? ==> r.value.0 in CountryCodes && full == r.value.0 + r.value.1
  {
    if |full| >= 3 && full[..3] == "+63" then Some(("+63", full[3..]))
    else if |full| >= 2 && full[..2] == "+1" then Some(("+1", full[2..]))
    else if |full| >= 3 && full[..3] == "+44" then Some(("+44", full[3..]))
    else None
  }

  /** The number sent at sign-up determines both the country code chosen and the digits typed. */
  lemma ContactNumberRoundTrip(code: string, digits: string)
    requires code in CountryCodes && AllDigits(digits)
    ensures SplitContact(code + digits) == Some((code, digits))
  {
    var full := code + digits;
    assert full[..|code|] == code && full[|code|..] == digits;
    assert full[1] == code[1];
    assert |full| >= 3 ==> full[..3][1] == full[1];
    assert |full| >= 2 ==> full[..2][1] == full[1];
  }

  /** Where a successful sign-in leads: an administrator stays on the page with a notice, anyone else goes home. */
  function AfterLogin(role: Option<string>): (next: Option<string>)
    ensures next.None? <==> role == Some("admin")
    ensures next.Some? ==> next.value == "/home"
  {
    if role == Some("admin") then None else Some("/home")
  }

  /** The error shown when a request fails: the server's message, or a generic one when it sent none. */
  function RequestError(serverMessage: Option<string>): (text: string)
    ensures text != ""
    ensures serverMessage.Some? && serverMessage.value != "" ==> text == serverMessage.value
  {
    if serverMessage.Some? && serverMessage.value != "" then serverMessage.value else "Server error. Please try again."
  }
}
