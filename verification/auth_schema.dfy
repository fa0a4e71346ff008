/** The request-body schemas of `src/schemas/auth.schema.ts`. Each regular
    expression is written twice: once as the pattern reads under the
    ECMAScript RegExp semantics of section 22.2 of ECMA-262 (no flags: `.`
    matches anything but a line terminator, `$` only the end of input,
    lookaheads look from where they stand), and once as the plain rule it
    amounts to; the lemmas prove the two agree. A zod string schema runs
    every check and reports every failing one, in the order written. */
module AuthSchema {
  import opened Wrappers

  // ---------------------------------------------------------------- character classes

  predicate IsLower(c: char) { 'a' <= c <= 'z' }
  predicate IsUpper(c: char) { 'A' <= c <= 'Z' }
  /** `\d` without the `u` flag: ASCII digits only. */
  predicate IsDigit(c: char) { '0' <= c <= '9' }
  predicate IsAlnum(c: char) { IsLower(c) || IsUpper(c) || IsDigit(c) }
  /** `[!@#$%^&*]` */
  predicate IsSpecial(c: char) { c in "!@#$%^&*" }
  /** `[-_]` */
  predicate IsJoiner(c: char) { c == '-' || c == '_' }
  /** `[a-zA-Z0-9-_]`: the dash after the range `0-9` is a literal dash. */
  predicate IsNicknameChar(c: char) { IsAlnum(c) || IsJoiner(c) }
  /** `[a-zA-Z0-9!@#$%^&*]` */
  predicate IsLoginIdChar(c: char) { IsAlnum(c) || IsSpecial(c) }

  /** The line terminators of section 12.3 of ECMA-262: LF, CR, LS, PS. */
  predicate IsLineTerminator(c: char) {
    c == '\n' || c == '\r' || c == '\U{2028}' || c == '\U{2029}'
  }

  /** `.*` matches all of `t`. */
  predicate DotsMatch(t: string) {
    forall k :: 0 <= k < |t| ==> !IsLineTerminator(t[k])
  }

  /** `.*[-_]{2}` matches from position `p`: some run of non-terminators
      leads from `p` to two joiners in a row. */
  predicate DoubleJoinerAhead(s: string, p: nat)
    requires p <= |s|
  {
    exists j :: p <= j < |s| - 1 && DotsMatch(s[p..j]) && IsJoiner(s[j]) && JoinerAt(s, j + 1)
  }

  predicate JoinerAt(s: string, i: nat) {
    i < |s| && IsJoiner(s[i])
  }

  /** Two joiners in a row anywhere in `s`. */
  predicate HasDoubleJoiner(s: string) {
    exists i :: 0 <= i < |s| - 1 && IsJoiner(s[i]) && JoinerAt(s, i + 1)
  }

  // ---------------------------------------------------------------- nickname

  const NicknamePatternMessage :=
    "Nickname must start and end with an alphanumeric character and must not contain consecutive special characters"
  const NicknameMinMessage := "Nickname must be at least 3 characters long"
  const NicknameMaxMessage := "Nickname must be at most 16 characters long"

  /** `[a-zA-Z0-9-_]{n}` matches `s[from..from + n]`. */
  predicate NicknameRun(s: string, from: nat, n: nat) {
    from + n <= |s| && forall i :: from <= i < from + n ==> IsNicknameChar(s[i])
  }

  /** `^[a-zA-Z0-9](?!.*[-_]{2})[a-zA-Z0-9-_]{1,14}[a-zA-Z0-9]$`, read as the
      pattern is written: the bounded repetition may take any count from 1
      to 14, and the final class must then end the input. */
  predicate NicknamePattern(s: string) {
    && |s| >= 1 && IsAlnum(s[0])
    && !DoubleJoinerAhead(s, 1)
    && exists n :: 1 <= n <= 14 && NicknameRun(s, 1, n) && |s| == n + 2 && IsAlnum(s[n + 1])
  }

  /** The nickname rule in words: 3 to 16 characters, alphanumeric at both
      ends, alphanumerics, dashes and underscores inside, and never two of
      the dashes and underscores next to each other. */
  predicate NicknameRule(s: string) {
    && 3 <= |s| <= 16
    && IsAlnum(s[0]) && IsAlnum(s[|s| - 1])
    && (forall i :: 0 < i < |s| - 1 ==> IsNicknameChar(s[i]))
    && !HasDoubleJoiner(s)
  }

  lemma NicknamePatternIsRule(s: string)
    ensures NicknamePattern(s) <==> NicknameRule(s)
  {
    if |s| >= 3 && IsAlnum(s[0]) {
      if DoubleJoinerAhead(s, 1) {
        var j :| 1 <= j < |s| - 1 && DotsMatch(s[1..j]) && IsJoiner(s[j]) && JoinerAt(s, j + 1);
        assert HasDoubleJoiner(s);
      }
      if HasDoubleJoiner(s) && (forall i :: 0 < i < |s| - 1 ==> IsNicknameChar(s[i])) && IsAlnum(s[|s| - 1]) {
        var i :| 0 <= i < |s| - 1 && IsJoiner(s[i]) && JoinerAt(s, i + 1);
        assert i >= 1;
        assert DotsMatch(s[1..i]) by {
          forall k | 0 <= k < i - 1 ensures !IsLineTerminator(s[1..i][k]) {
            assert IsNicknameChar(s[k + 1]);
          }
        }
        assert DoubleJoinerAhead(s, 1);
      }
      if NicknameRule(s) {
        assert NicknameRun(s, 1, |s| - 2);
      }
    }
  }

  /** The pattern alone already bounds the length to 3..16. */
  lemma NicknamePatternBoundsLength(s: string)
    requires NicknamePattern(s)
    ensures 3 <= |s| <= 16
  {
    NicknamePatternIsRule(s);
  }

  /** The messages of the failing checks, in the order written. */
  function NicknameIssues(s: string): (issues: seq<string>)
    ensures issues == [] <==> NicknameRule(s)
    ensures NicknamePattern(s) <==> NicknamePatternMessage !in issues
    ensures NicknameMinMessage in issues ==> NicknamePatternMessage in issues
    ensures NicknameMaxMessage in issues ==> NicknamePatternMessage in issues
  {
    NicknamePatternIsRule(s);
    (if NicknamePattern(s) then [] else [NicknamePatternMessage])
    + (if |s| < 3 then [NicknameMinMessage] else [])
    + (if |s| > 16 then [NicknameMaxMessage] else [])
  }

  // ---------------------------------------------------------------- loginId

  const LoginIdPatternMessage := "Login ID must not contain consecutive special characters"
  const LoginIdMinMessage := "Login ID must be at least 8 characters long"
  const LoginIdMaxMessage := "Login ID must be at most 256 characters long"

  predicate AllLoginIdChars(s: string) {
    forall i :: 0 <= i < |s| ==> IsLoginIdChar(s[i])
  }

  /** `^(?!.*[-_]{2})[a-zA-Z0-9!@#$%^&*]+$` */
  predicate LoginIdPattern(s: string) {
    !DoubleJoinerAhead(s, 0) && |s| >= 1 && AllLoginIdChars(s)
  }

  /** Dashes and underscores are not login-id characters, so the lookahead
      that forbids two of them in a row never rejects anything. */
  lemma LoginIdLookaheadIsVacuous(s: string)
    ensures AllLoginIdChars(s) ==> !DoubleJoinerAhead(s, 0)
  {
    if AllLoginIdChars(s) {
      forall j | 0 <= j < |s| ensures !IsJoiner(s[j]) {
        assert IsLoginIdChar(s[j]);
      }
    }
  }

  /** 8 to 256 characters, each a letter, a digit or one of `!@#$%^&*`. */
  predicate LoginIdRule(s: string) {
    8 <= |s| <= 256 && AllLoginIdChars(s)
  }

  function LoginIdIssues(s: string): (issues: seq<string>)
    ensures issues == [] <==> LoginIdRule(s)
    ensures LoginIdPatternMessage in issues <==> |s| == 0 || !AllLoginIdChars(s)
  {
    LoginIdLookaheadIsVacuous(s);
    (if LoginIdPattern(s) then [] else [LoginIdPatternMessage])
    + (if |s| < 8 then [LoginIdMinMessage] else [])
    + (if |s| > 256 then [LoginIdMaxMessage] else [])
  }

  // ---------------------------------------------------------------- password

  const PasswordMinMessage := "Password must be at least 8 characters long"
  const PasswordMaxMessage := "Password must be at most 256 characters long"
  const PasswordPatternMessage :=
    "Password must contain at least one lowercase letter, one number, and one special character"

  datatype CharClass = Lower | Digit | Special

  predicate InClass(c: char, k: CharClass) {
    match k
    case Lower => IsLower(c)
    case Digit => IsDigit(c)
    case Special => IsSpecial(c)
  }

  /** The lookahead `(?=.*[k])` at the start: a character of class `k`
      reachable without crossing a line terminator. */
  predicate Ahead(s: string, k: CharClass) {
    exists j :: 0 <= j < |s| && DotsMatch(s[..j]) && InClass(s[j], k)
  }

  /** `^(?=.*[a-z])(?=.*\d)(?=.*[!@#$%^&*]).+$` */
  predicate PasswordPattern(s: string) {
    Ahead(s, Lower) && Ahead(s, Digit) && Ahead(s, Special) && |s| >= 1 && DotsMatch(s)
  }

  predicate Contains(s: string, k: CharClass) {
    exists i :: 0 <= i < |s| && InClass(s[i], k)
  }

  /** 8 to 256 characters, one line, with a lowercase letter, a digit and one
      of `!@#$%^&*` somewhere. */
  predicate PasswordRule(s: string) {
    && 8 <= |s| <= 256 && DotsMatch(s)
    && Contains(s, Lower) && Contains(s, Digit) && Contains(s, Special)
  }

  lemma PasswordPatternIsRule(s: string)
    ensures PasswordPattern(s) <==> DotsMatch(s) && Contains(s, Lower) && Contains(s, Digit) && Contains(s, Special)
  {
    if DotsMatch(s) {
      forall k: CharClass | Contains(s, k) ensures Ahead(s, k) {
        var i :| 0 <= i < |s| && InClass(s[i], k);
        assert DotsMatch(s[..i]) by {
          forall m | 0 <= m < i ensures !IsLineTerminator(s[..i][m]) {
            assert s[..i][m] == s[m];
          }
        }
      }
      forall k: CharClass | Ahead(s, k) ensures Contains(s, k) {
        var j :| 0 <= j < |s| && DotsMatch(s[..j]) && InClass(s[j], k);
      }
    }
  }

  function PasswordIssues(s: string): (issues: seq<string>)
    ensures issues == [] <==> PasswordRule(s)
  {
    PasswordPatternIsRule(s);
    (if |s| < 8 then [PasswordMinMessage] else [])
    + (if |s| > 256 then [PasswordMaxMessage] else [])
    + (if PasswordPattern(s) then [] else [PasswordPatternMessage])
  }

  /** However strong the rest of it, a password with a line break is
      refused, because `.+$` cannot cross it. */
  lemma LineTerminatorRejectsPassword(s: string, i: nat)
    requires i < |s| && IsLineTerminator(s[i])
    ensures PasswordPatternMessage in PasswordIssues(s)
  {
    PasswordPatternIsRule(s);
  }

  // ---------------------------------------------------------------- bodies

  datatype SignupBody = SignupBody(nickname: Option<string>, loginId: string, email: string, password: string)
  datatype LoginBody = LoginBody(loginId: string, password: string)

  /** A request body as received; a field is absent or a string. */
  datatype RawSignup = RawSignup(nickname: Option<string>, loginId: Option<string>,
                                 email: Option<string>, password: Option<string>)
  datatype RawLogin = RawLogin(loginId: Option<string>, password: Option<string>)

  datatype Issue = Issue(path: string, message: string)

  const Required := "Required"
  const InvalidEmail := "Invalid email"

  function At(path: string, messages: seq<string>): (issues: seq<Issue>)
    ensures |issues| == |messages|
    ensures forall i :: 0 <= i < |issues| ==> issues[i] == Issue(path, messages[i])
  {
    seq(|messages|, i requires 0 <= i < |messages| => Issue(path, messages[i]))
  }

  /** A required string field. */
  function RequiredIssues(v: Option<string>, checks: string -> seq<string>): seq<string> {
    if v.None? then [Required] else checks(v.value)
  }

  function EmailIssues(isEmail: string -> bool): string -> seq<string> {
    e => if isEmail(e) then [] else [InvalidEmail]
  }

  /** `signupBodySchema`: the nickname may be left out, the other three are
      required. The issues list fields in the order the schema declares
      them. `isEmail` is zod's email format check. */
  function ParseSignup(raw: RawSignup, isEmail: string -> bool): (r: Result<SignupBody, seq<Issue>>)
    ensures r.Ok? <==> && (raw.nickname.None? || NicknameRule(raw.nickname.value))
                       && raw.loginId.Some? && LoginIdRule(raw.loginId.value)
                       && raw.email.Some? && isEmail(raw.email.value)
                       && raw.password.Some? && PasswordRule(raw.password.value)
    ensures r.Ok? ==> r.value == SignupBody(raw.nickname, raw.loginId.value, raw.email.value, raw.password.value)
    ensures r.Err? ==> |r.error| > 0
    ensures r.Err? && raw.nickname.Some? && NicknameRule(raw.nickname.value) ==>
              forall i :: 0 <= i < |r.error| ==> r.error[i].path != "nickname"
  {
    var issues :=
      At("nickname", if raw.nickname.None? then [] else NicknameIssues(raw.nickname.value))
      + At("loginId", RequiredIssues(raw.loginId, LoginIdIssues))
      + At("email", RequiredIssues(raw.email, EmailIssues(isEmail)))
      + At("password", RequiredIssues(raw.password, PasswordIssues));
    if issues == [] then Ok(SignupBody(raw.nickname, raw.loginId.value, raw.email.value, raw.password.value))
    else Err(issues)
  }

  /** `loginBodySchema`: both fields required. */
  function ParseLogin(raw: RawLogin): (r: Result<LoginBody, seq<Issue>>)
    ensures r.Ok? <==> && raw.loginId.Some? && LoginIdRule(raw.loginId.value)
                       && raw.password.Some? && PasswordRule(raw.password.value)
    ensures r.Ok? ==> r.value == LoginBody(raw.loginId.value, raw.password.value)
    ensures r.Err? ==> |r.error| > 0
  {
    var issues := At("loginId", RequiredIssues(raw.loginId, LoginIdIssues))
                  + At("password", RequiredIssues(raw.password, PasswordIssues));
    if issues == [] then Ok(LoginBody(raw.loginId.value, raw.password.value)) else Err(issues)
  }
}
