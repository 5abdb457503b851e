/** The client-side form rules of the sign-in and sign-up screens
    (`signInSchema` and `signUpSchema` in src/app/auth/page.tsx).

    The schema library measures strings with JavaScript's `length`, which counts
    UTF-16 code units, and checks the sign-up password against the regular
    expression `^(?=.*[a-z])(?=.*[A-Z])(?=.*\d)` (no flags). The e-mail format check
    belongs to the schema library and is an input here: `emailOk`. */
module CredentialRules {
  import opened AuthTypes

  // ---------------------------------------------------------------------------
  // String length as JavaScript measures it

  /** Code units a character takes in UTF-16: characters above the Basic
      Multilingual Plane are written as a surrogate pair. */
  function Utf16Units(c: char): (n: nat)
    ensures n == 1 || n == 2
    ensures n == 2 <==> c as int >= 0x10000
  {
    if c as int >= 0x10000 then 2 else 1
  }

  /** `s.length` in JavaScript. */
  function Utf16Length(s: string): (n: nat)
    ensures |s| <= n <= 2 * |s|
  {
    if s == [] then 0 else Utf16Units(s[0]) + Utf16Length(s[1..])
  }

  predicate InBasicPlane(s: string)
  {
    forall i :: 0 <= i < |s| ==> s[i] as int < 0x10000
  }

  /** For text made of Basic Multilingual Plane characters only, JavaScript's
      length is the number of characters. */
  lemma {:induction false} Utf16LengthOfBasicPlane(s: string)
    requires InBasicPlane(s)
    ensures Utf16Length(s) == |s|
  {
    if s != [] {
      assert InBasicPlane(s[1..]) by {
        forall i | 0 <= i < |s[1..]| ensures s[1..][i] as int < 0x10000 {
          assert s[1..][i] == s[i + 1];
        }
      }
      Utf16LengthOfBasicPlane(s[1..]);
    }
  }

  // ---------------------------------------------------------------------------
  // The sign-up password pattern

  /** The three character classes of the pattern: `[a-z]`, `[A-Z]` and `\d`,
      which in JavaScript is exactly `[0-9]`. */
  datatype CharClass = Lower | Upper | Digit

  predicate InClass(c: char, k: CharClass)
  {
    match k
    case Lower => 'a' <= c <= 'z'
    case Upper => 'A' <= c <= 'Z'
    case Digit => '0' <= c <= '9'
  }

  /** The characters `.` does not match when the `s` flag is absent. */
  predicate IsLineTerminator(c: char)
  {
    c == '\n' || c == '\r' || c == '\U{2028}' || c == '\U{2029}'
  }

  /** The meaning of the lookahead `(?=.*[k])` at the start of `s`: `.*` can
      stretch over some run of non-terminator characters, after which a
      character of class `k` follows. */
  ghost predicate LookaheadHolds(s: string, k: CharClass)
    ensures LookaheadHolds(s, k) ==> Contains(s, k)
    ensures !HasLineTerminator(s) ==> (LookaheadHolds(s, k) <==> Contains(s, k))
  {
    exists j :: 0 <= j < |s| && InClass(s[j], k) && NoTerminatorBefore(s, j)
  }

  ghost predicate NoTerminatorBefore(s: string, j: int)
    requires 0 <= j <= |s|
  {
    forall i :: 0 <= i < j ==> !IsLineTerminator(s[i])
  }

  /** A left-to-right scan deciding the lookahead: it succeeds at the first
      character of class `k` and gives up at the first line terminator. */
  predicate ScanFinds(s: string, k: CharClass)
    ensures ScanFinds(s, k) ==> Contains(s, k)
  {
    if s == [] then false
    else if InClass(s[0], k) then true
    else if IsLineTerminator(s[0]) then false
    else ScanFinds(s[1..], k)
  }

  /** The scan decides exactly the lookahead. */
  lemma {:induction false} ScanDecidesLookahead(s: string, k: CharClass)
    ensures ScanFinds(s, k) <==> LookaheadHolds(s, k)
  {
    if s == [] {
    } else if InClass(s[0], k) {
      assert InClass(s[0], k) && NoTerminatorBefore(s, 0);
    } else if IsLineTerminator(s[0]) {
      forall j | 0 <= j < |s| && InClass(s[j], k) ensures !NoTerminatorBefore(s, j) {
        assert 0 < j;
      }
    } else {
      ScanDecidesLookahead(s[1..], k);
      if LookaheadHolds(s[1..], k) {
        var j :| 0 <= j < |s[1..]| && InClass(s[1..][j], k) && NoTerminatorBefore(s[1..], j);
        assert InClass(s[j + 1], k);
        assert NoTerminatorBefore(s, j + 1) by {
          forall i | 0 <= i < j + 1 ensures !IsLineTerminator(s[i]) {
            if i > 0 { assert s[i] == s[1..][i - 1]; }
          }
        }
      }
      if LookaheadHolds(s, k) {
        var j :| 0 <= j < |s| && InClass(s[j], k) && NoTerminatorBefore(s, j);
        assert j != 0;
        assert InClass(s[1..][j - 1], k);
        assert NoTerminatorBefore(s[1..], j - 1) by {
          forall i | 0 <= i < j - 1 ensures !IsLineTerminator(s[1..][i]) {
            assert s[1..][i] == s[i + 1];
          }
        }
      }
    }
  }

  /** `^(?=.*[a-z])(?=.*[A-Z])(?=.*\d)` tested against `s`. Without the `m` flag
      `^` matches only at the start, so the three lookaheads are tried there once. */
  predicate PasswordPatternMatches(s: string)
    ensures PasswordPatternMatches(s) <==>
      LookaheadHolds(s, Lower) && LookaheadHolds(s, Upper) && LookaheadHolds(s, Digit)
  {
    ScanDecidesLookahead(s, Lower);
    ScanDecidesLookahead(s, Upper);
    ScanDecidesLookahead(s, Digit);
    ScanFinds(s, Lower) && ScanFinds(s, Upper) && ScanFinds(s, Digit)
  }

  predicate HasLineTerminator(s: string)
  {
    exists i :: 0 <= i < |s| && IsLineTerminator(s[i])
  }

  predicate Contains(s: string, k: CharClass)
  {
    exists i :: 0 <= i < |s| && InClass(s[i], k)
  }

  /** On a password without line breaks the pattern means: at least one ASCII
      lower-case letter, one ASCII upper-case letter and one digit, anywhere. */
  lemma PatternOnSingleLine(s: string)
    requires !HasLineTerminator(s)
    ensures PasswordPatternMatches(s) <==> Contains(s, Lower) && Contains(s, Upper) && Contains(s, Digit)
  {
  }

  /** A line terminator, whichever of the four it is, hides every character
      after it from the pattern. */
  lemma {:induction false} PatternStopsAtLineBreak(line: string, b: char, rest: string, k: CharClass)
    requires !HasLineTerminator(line) && IsLineTerminator(b)
    ensures ScanFinds(line + [b] + rest, k) <==> Contains(line, k)
  {
    var s := line + [b] + rest;
    ScanDecidesLookahead(s, k);
    if Contains(line, k) {
      var j :| 0 <= j < |line| && InClass(line[j], k);
      assert s[j] == line[j];
      assert NoTerminatorBefore(s, j) by {
        forall i | 0 <= i < j ensures !IsLineTerminator(s[i]) {
          assert s[i] == line[i];
        }
      }
    }
    if LookaheadHolds(s, k) {
      var j :| 0 <= j < |s| && InClass(s[j], k) && NoTerminatorBefore(s, j);
      assert s[|line|] == b;
      assert j < |line|;
      assert line[j] == s[j];
    }
  }

  // ---------------------------------------------------------------------------
  // The two schemas

  const MinPasswordLength: nat := 8
  const MinFullNameLength: nat := 2

  const EmailMessage: string := "Geçerli bir email adresi giriniz"
  const PasswordLengthMessage: string := "Şifre en az 8 karakter olmalıdır"
  const FullNameLengthMessage: string := "Ad soyad en az 2 karakter olmalıdır"
  const PasswordPatternMessage: string := "Şifre en az 1 küçük harf, 1 büyük harf ve 1 rakam içermelidir"

  datatype Field = FullName | Email | Password

  /** One validation failure the schema reports for a field. */
  datatype Issue = Issue(field: Field, message: string)

  /** The messages the two schemas attach to each field. */
  predicate BelongsTo(message: string, field: Field)
  {
    match field
    case FullName => message == FullNameLengthMessage
    case Email => message == EmailMessage
    case Password => message == PasswordLengthMessage || message == PasswordPatternMessage
  }

  datatype SignInForm = SignInForm(email: string, password: string)
  datatype SignUpForm = SignUpForm(fullName: string, email: string, password: string)

  /** The sign-up form's `defaultValues`, which `reset()` restores. */
  const EmptySignUpForm: SignUpForm := SignUpForm("", "", "")

  /** The issues `signInSchema` reports, field by field in the schema's order. */
  function SignInIssues(f: SignInForm, emailOk: bool): (issues: seq<Issue>)
    ensures |issues| <= 2
    ensures forall i :: 0 <= i < |issues| ==> issues[i].field != FullName && BelongsTo(issues[i].message, issues[i].field)
  {
    (if emailOk then [] else [Issue(Email, EmailMessage)])
    + (if Utf16Length(f.password) >= MinPasswordLength then [] else [Issue(Password, PasswordLengthMessage)])
  }

  /** The issues `signUpSchema` reports. Every check of a field runs, so a short
      password that also misses the pattern gets two issues. */
  function SignUpIssues(f: SignUpForm, emailOk: bool): (issues: seq<Issue>)
    ensures |issues| <= 4
    ensures forall i :: 0 <= i < |issues| ==> BelongsTo(issues[i].message, issues[i].field)
  {
    (if Utf16Length(f.fullName) >= MinFullNameLength then [] else [Issue(FullName, FullNameLengthMessage)])
    + (if emailOk then [] else [Issue(Email, EmailMessage)])
    + (if Utf16Length(f.password) >= MinPasswordLength then [] else [Issue(Password, PasswordLengthMessage)])
    + (if PasswordPatternMatches(f.password) then [] else [Issue(Password, PasswordPatternMessage)])
  }

  /** The message the screen shows under `field`. The form resolver keeps the
      first issue of each field, and the screen renders that issue's message. */
  function ShownMessage(issues: seq<Issue>, field: Field): (shown: Option<string>)
    ensures shown.None? <==> forall i :: 0 <= i < |issues| ==> issues[i].field != field
    ensures shown.Some? ==>
      exists i :: 0 <= i < |issues| && issues[i] == Issue(field, shown.value)
        && forall j :: 0 <= j < i ==> issues[j].field != field
  {
    if issues == [] then None
    else if issues[0].field == field then Some(issues[0].message)
    else
      var rest := ShownMessage(issues[1..], field);
      if rest.Some? then
        var i :| 0 <= i < |issues[1..]| && issues[1..][i] == Issue(field, rest.value)
          && forall j :: 0 <= j < i ==> issues[1..][j].field != field;
        assert issues[i + 1] == Issue(field, rest.value);
        assert forall j :: 0 <= j < i + 1 ==> issues[j].field != field by {
          forall j | 0 <= j < i + 1 ensures issues[j].field != field {
            if j > 0 { assert issues[j] == issues[1..][j - 1]; }
          }
        }
        rest
      else
        assert forall i :: 0 <= i < |issues| ==> issues[i].field != field by {
          forall i | 0 <= i < |issues| ensures issues[i].field != field {
            if i > 0 { assert issues[i] == issues[1..][i - 1]; }
          }
        }
        rest
  }

  /** Under the sign-up password the screen shows the length message when the
      password is too short, else the pattern message when it misses the
      pattern, else nothing. */
  lemma ShownSignUpPasswordMessage(f: SignUpForm, emailOk: bool)
    ensures ShownMessage(SignUpIssues(f, emailOk), Password) ==
      if Utf16Length(f.password) < MinPasswordLength then Some(PasswordLengthMessage)
      else if !PasswordPatternMatches(f.password) then Some(PasswordPatternMessage)
      else None
  {
    var head := (if Utf16Length(f.fullName) >= MinFullNameLength then [] else [Issue(FullName, FullNameLengthMessage)])
      + (if emailOk then [] else [Issue(Email, EmailMessage)]);
    var tail := (if Utf16Length(f.password) >= MinPasswordLength then [] else [Issue(Password, PasswordLengthMessage)])
      + (if PasswordPatternMatches(f.password) then [] else [Issue(Password, PasswordPatternMessage)]);
    var issues := SignUpIssues(f, emailOk);
    assert issues == head + tail;
    assert forall i :: 0 <= i < |head| ==> issues[i].field != Password;
    if tail != [] {
      assert issues[|head|] == tail[0];
    }
  }

  /** A sign-in form passes when the e-mail passes and the password has at
      least eight code units; no character-class rule applies. */
  lemma SignInAcceptedIff(f: SignInForm, emailOk: bool)
    ensures SignInIssues(f, emailOk) == [] <==> emailOk && Utf16Length(f.password) >= 8
  {
  }

  /** A sign-up form passes exactly when the name has two code units, the e-mail
      passes, the password has eight code units and each of the pattern's three
      lookaheads holds. */
  lemma SignUpAcceptedIff(f: SignUpForm, emailOk: bool)
    ensures SignUpIssues(f, emailOk) == [] <==>
      && Utf16Length(f.fullName) >= 2
      && emailOk
      && Utf16Length(f.password) >= 8
      && LookaheadHolds(f.password, Lower)
      && LookaheadHolds(f.password, Upper)
      && LookaheadHolds(f.password, Digit)
  {
    ScanDecidesLookahead(f.password, Lower);
    ScanDecidesLookahead(f.password, Upper);
    ScanDecidesLookahead(f.password, Digit);
  }

  /** For a typed password (one line, Basic Multilingual Plane only) the sign-up
      password rule is: at least eight characters with a lower-case letter, an
      upper-case letter and a digit among them. */
  lemma SignUpPasswordRule(f: SignUpForm, emailOk: bool)
    requires !HasLineTerminator(f.password) && InBasicPlane(f.password)
    ensures (forall i :: 0 <= i < |SignUpIssues(f, emailOk)| ==> SignUpIssues(f, emailOk)[i].field != Password) <==>
      |f.password| >= 8 && Contains(f.password, Lower) && Contains(f.password, Upper) && Contains(f.password, Digit)
  {
    Utf16LengthOfBasicPlane(f.password);
    PatternOnSingleLine(f.password);
    var issues := SignUpIssues(f, emailOk);
    var head := (if Utf16Length(f.fullName) >= MinFullNameLength then [] else [Issue(FullName, FullNameLengthMessage)])
      + (if emailOk then [] else [Issue(Email, EmailMessage)]);
    var tail := (if Utf16Length(f.password) >= MinPasswordLength then [] else [Issue(Password, PasswordLengthMessage)])
      + (if PasswordPatternMatches(f.password) then [] else [Issue(Password, PasswordPatternMessage)]);
    assert issues == head + tail;
    assert forall i :: 0 <= i < |head| ==> head[i].field != Password;
    if tail != [] {
      assert issues[|head|] == tail[0];
    }
  }

  /** The sign-up name gets an issue exactly when it is shorter than two code
      units, whatever the other fields hold. */
  lemma SignUpFullNameRule(f: SignUpForm, emailOk: bool)
    ensures (forall i :: 0 <= i < |SignUpIssues(f, emailOk)| ==> SignUpIssues(f, emailOk)[i].field != FullName) <==>
      Utf16Length(f.fullName) >= 2
  {
    var issues := SignUpIssues(f, emailOk);
    if Utf16Length(f.fullName) < MinFullNameLength {
      assert issues[0].field == FullName;
    }
  }

  /** The sign-in password gets an issue exactly when it is shorter than eight
      code units, whatever the e-mail check says; no character rule applies. */
  lemma SignInPasswordRule(f: SignInForm, emailOk: bool)
    ensures (forall i :: 0 <= i < |SignInIssues(f, emailOk)| ==> SignInIssues(f, emailOk)[i].field != Password) <==>
      Utf16Length(f.password) >= 8
  {
    var issues := SignInIssues(f, emailOk);
    if Utf16Length(f.password) < MinPasswordLength {
      assert issues[|issues| - 1].field == Password;
    }
  }

  /** Every password the sign-up screen accepts is also accepted by the sign-in screen. */
  lemma SignUpPasswordPassesSignIn(f: SignUpForm, emailOk: bool)
    requires SignUpIssues(f, emailOk) == []
    ensures SignInIssues(SignInForm(f.email, f.password), emailOk) == []
  {
  }

  /** An eight-letter lower-case password signs in but cannot sign up. */
  lemma LowerCaseOnlyPassword()
    ensures SignInIssues(SignInForm("a@b.co", "abcdefgh"), true) == []
    ensures SignUpIssues(SignUpForm("Ada", "a@b.co", "abcdefgh"), true) == [Issue(Password, PasswordPatternMessage)]
  {
    assert Utf16Length("abcdefgh") == 8;
    assert !ScanFinds("abcdefgh", Upper);
  }

  /** A short password that misses the pattern gets both password issues from
      the schema; the screen shows the first, the length message. */
  lemma ShortPlainPassword()
    ensures SignUpIssues(SignUpForm("Ada", "a@b.co", "abc"), true)
      == [Issue(Password, PasswordLengthMessage), Issue(Password, PasswordPatternMessage)]
    ensures ShownMessage(SignUpIssues(SignUpForm("Ada", "a@b.co", "abc"), true), Password)
      == Some(PasswordLengthMessage)
  {
    assert Utf16Length("abc") == 3;
    assert !ScanFinds("abc", Upper);
  }
}
