/** JavaScript's global `parseInt` with no radix, as section 19.2.5 of
    ECMA-262 defines it: leading white space is skipped, one sign is read, a
    "0x" or "0X" prefix switches to base 16, and the longest run of digits
    that follows is the value; without any digit the result is NaN. */
module JsParseInt {
  import opened Wrappers
  import Decimal

  /** The StrWhiteSpaceChar of section 7.1.4.1 of ECMA-262: the white space
      code points (tab, vertical tab, form feed, the byte order mark and the
      space separators) and the line terminators. */
  predicate IsStrWhiteSpace(c: char) {
    || c == '\t' || c == '\U{B}' || c == '\U{C}' || c == '\U{FEFF}'
    || c == ' ' || c == '\U{A0}' || c == '\U{1680}' || ('\U{2000}' <= c <= '\U{200A}')
    || c == '\U{202F}' || c == '\U{205F}' || c == '\U{3000}'
    || c == '\n' || c == '\r' || c == '\U{2028}' || c == '\U{2029}'
  }

  /** `s` without its leading white space. */
  function TrimStart(s: string): (t: string)
    ensures |t| <= |s| && t == s[|s| - |t|..]
    ensures forall i :: 0 <= i < |s| - |t| ==> IsStrWhiteSpace(s[i])
    ensures t == "" || !IsStrWhiteSpace(t[0])
  {
    if s != "" && IsStrWhiteSpace(s[0]) then TrimStart(s[1..]) else s
  }

  /** The value of `c` as a digit in base `radix` (10 or 16), if it is one. */
  function DigitIn(c: char, radix: nat): (d: Option<nat>)
    ensures d.Some? ==> d.value < radix
    ensures radix == 10 ==> (d.Some? <==> Decimal.IsDigit(c))
    ensures radix == 10 && d.Some? ==> d.value == Decimal.DigitValue(c)
  {
    if '0' <= c <= '9' && (c as int - '0' as int) < radix then Some(c as int - '0' as int)
    else if radix == 16 && 'a' <= c <= 'f' then Some(c as int - 'a' as int + 10)
    else if radix == 16 && 'A' <= c <= 'F' then Some(c as int - 'A' as int + 10)
    else None
  }

  predicate AllDigitsIn(z: string, radix: nat) {
    forall i :: 0 <= i < |z| ==> DigitIn(z[i], radix).Some?
  }

  /** The longest prefix of `s` made of digits in base `radix`. */
  function DigitRun(s: string, radix: nat): (z: string)
    ensures z <= s && AllDigitsIn(z, radix)
    ensures z == s || DigitIn(s[|z|], radix).None?
  {
    if s != "" && DigitIn(s[0], radix).Some? then
      var rest := DigitRun(s[1..], radix);
      assert [s[0]] + s[1..] == s;
      [s[0]] + rest
    else ""
  }

  /** The value of a digit string, most significant digit first. */
  function ValueIn(z: string, radix: nat): nat
    requires AllDigitsIn(z, radix)
  {
    if z == "" then 0 else radix * ValueIn(z[..|z| - 1], radix) + DigitIn(z[|z| - 1], radix).value
  }

  /** The digits after the sign: base 16 after a "0x" or "0X" prefix, base
      10 otherwise; `None` when no digit follows. */
  function ParseUnsigned(u: string): (r: Option<nat>)
    ensures r.Some? ==> u != ""
  {
    var hex := |u| >= 2 && u[0] == '0' && (u[1] == 'x' || u[1] == 'X');
    var radix := if hex then 16 else 10;
    var z := DigitRun(if hex then u[2..] else u, radix);
    if z == "" then None else Some(ValueIn(z, radix))
  }

  /** The sign, if any, then the digits. */
  function ParseSigned(t: string): (r: Option<int>)
    ensures t == "" ==> r.None?
    ensures r.Some? && r.value < 0 ==> t[0] == '-'
  {
    var negative := t != "" && t[0] == '-';
    var u := if t != "" && (t[0] == '-' || t[0] == '+') then t[1..] else t;
    match ParseUnsigned(u)
    case None => None
    case Some(v) => if negative then Some(-(v as int)) else Some(v as int)
  }

  /** NaN is `None`; the sign of zero is not kept. */
  function ParseInt(s: string): (r: Option<int>)
    ensures TrimStart(s) == "" ==> r.None?
    ensures r.Some? && r.value < 0 ==> TrimStart(s)[0] == '-'
  {
    ParseSigned(TrimStart(s))
  }

  lemma {:induction false} DecimalValue(z: string)
    requires Decimal.AllDigits(z)
    ensures AllDigitsIn(z, 10) && ValueIn(z, 10) == Decimal.Value(z)
  {
    if z != "" {
      DecimalValue(z[..|z| - 1]);
    }
  }

  /** The numeral a number prints as reads back as that number, whatever
      non-digit text follows it (short of an "x" that turns "0" into a hex
      prefix), and with any white space and sign before it. */
  lemma ReadsDecimal(ws: string, sign: string, n: nat, rest: string)
    requires forall i :: 0 <= i < |ws| ==> IsStrWhiteSpace(ws[i])
    requires sign == "" || sign == "+" || sign == "-"
    requires rest == "" || !Decimal.IsDigit(rest[0])
    requires n == 0 ==> rest == "" || (rest[0] != 'x' && rest[0] != 'X')
    ensures ParseInt(ws + sign + Decimal.FromNat(n) + rest) == Some(if sign == "-" then -(n as int) else n as int)
  {
    var d := Decimal.FromNat(n);
    var t := sign + (d + rest);
    Regroup(ws, sign, d, rest);
    ReadsSignedDecimal(sign, n, rest);
    TrimsTo(ws, t);
  }

  lemma Regroup(a: string, b: string, c: string, d: string)
    ensures a + b + c + d == a + (b + (c + d))
  {
  }

  lemma ReadsSignedDecimal(sign: string, n: nat, rest: string)
    requires sign == "" || sign == "+" || sign == "-"
    requires rest == "" || !Decimal.IsDigit(rest[0])
    requires n == 0 ==> rest == "" || (rest[0] != 'x' && rest[0] != 'X')
    ensures var t := sign + (Decimal.FromNat(n) + rest);
            && !IsStrWhiteSpace(t[0])
            && ParseSigned(t) == Some(if sign == "-" then -(n as int) else n as int)
  {
    var u := Decimal.FromNat(n) + rest;
    ReadsUnsignedDecimal(n, rest);
    assert u[0] == Decimal.FromNat(n)[0];
    if sign == "" {
      assert sign + u == u;
      SignedWithoutSign(u);
    } else {
      SignedWithSign(sign[0], u);
      assert sign + u == [sign[0]] + u;
    }
  }

  lemma SignedWithoutSign(u: string)
    requires u != "" && Decimal.IsDigit(u[0])
    ensures !IsStrWhiteSpace(u[0])
    ensures ParseUnsigned(u).Some? ==> ParseSigned(u) == Some(ParseUnsigned(u).value as int)
  {
  }

  lemma SignedWithSign(c: char, u: string)
    requires c == '+' || c == '-'
    ensures !IsStrWhiteSpace(c)
    ensures ParseUnsigned(u).Some? ==>
              ParseSigned([c] + u) == Some(if c == '-' then -(ParseUnsigned(u).value as int) else ParseUnsigned(u).value as int)
  {
    assert ([c] + u)[1..] == u;
  }

  lemma ReadsUnsignedDecimal(n: nat, rest: string)
    requires rest == "" || !Decimal.IsDigit(rest[0])
    requires n == 0 ==> rest == "" || (rest[0] != 'x' && rest[0] != 'X')
    ensures ParseUnsigned(Decimal.FromNat(n) + rest) == Some(n)
  {
    var d := Decimal.FromNat(n);
    var u := d + rest;
    assert u[0] == d[0];
    if |d| >= 2 {
      assert u[1] == d[1];
    } else if rest != "" {
      assert u[1] == rest[0];
    }
    DigitRunOf(d, rest);
    DecimalValue(d);
    Decimal.ValueFromNat(n);
  }

  lemma {:induction false} TrimsTo(ws: string, t: string)
    requires forall i :: 0 <= i < |ws| ==> IsStrWhiteSpace(ws[i])
    requires t == "" || !IsStrWhiteSpace(t[0])
    ensures TrimStart(ws + t) == t
  {
    if ws != "" {
      assert (ws + t)[1..] == ws[1..] + t;
      TrimsTo(ws[1..], t);
    }
  }

  lemma {:induction false} DigitRunOf(d: string, rest: string)
    requires Decimal.AllDigits(d)
    requires rest == "" || !Decimal.IsDigit(rest[0])
    ensures DigitRun(d + rest, 10) == d
  {
    if d == "" {
      assert d + rest == rest;
    } else {
      assert (d + rest)[1..] == d[1..] + rest;
      DigitRunOf(d[1..], rest);
      assert [d[0]] + d[1..] == d;
    }
  }

  /** `parseInt(String(undefined))` is NaN. */
  lemma UndefinedIsNaN()
    ensures ParseInt("undefined") == None
  {
    var u := "undefined";
    assert u[0] == 'u' && !IsStrWhiteSpace(u[0]);
    assert TrimStart(u) == u;
    assert DigitIn(u[0], 10).None?;
    assert DigitRun(u, 10) == "";
    assert ParseUnsigned(u) == None;
  }

  /** A hexadecimal prefix is honoured: "0x1F" is 31. */
  lemma ReadsHexPrefix()
    ensures ParseInt("0x1F") == Some(31)
    ensures ParseInt("0x") == None
  {
    assert TrimStart("0x1F") == "0x1F";
    assert TrimStart("0x") == "0x";
    assert "0x1F"[2..] == "1F";
    assert DigitRun("1F", 16) == "1F" by {
      assert "1F"[1..] == "F";
      assert DigitRun("F", 16) == "F" by { assert "F"[1..] == ""; }
    }
    assert ValueIn("1F", 16) == 31 by {
      assert "1F"[..1] == "1";
      assert ValueIn("1", 16) == 1 by { assert "1"[..0] == ""; }
    }
    assert "0x"[2..] == "";
  }
}

/** `validate` in `src/config/validate.ts`: reads the raw environment into
    the configuration record, with defaults, and hands the record to a
    generated validator (a parameter here) whose failures it reports. */
module ConfigValidate {
  import opened Wrappers
  import opened Errors
  import Text
  import JsParseInt

  const TrueWords: set<string> := {"true", "1", "yes", "on"}
  const FalseWords: set<string> := {"false", "0", "no", "off"}
  const InvalidBoolean := PlainError("Invalid boolean value")

  /** `isTrue(value, defaultValue)`. */
  function IsTrue(value: Option<string>, defaultValue: bool): (r: Result<bool, Error>)
    ensures r == Ok(true) <==> (value.Some? && value.value in TrueWords) || (value.None? && defaultValue)
    ensures r == Ok(false) <==> (value.Some? && value.value in FalseWords) || (value.None? && !defaultValue)
    ensures r.Err? <==> value.Some? && value.value !in TrueWords + FalseWords
    ensures r.Err? ==> r.error == InvalidBoolean
  {
    if value == Some("true") || value == Some("1") || value == Some("yes") || value == Some("on") then Ok(true)
    else if value == Some("false") || value == Some("0") || value == Some("no") || value == Some("off") then Ok(false)
    else if value.None? then Ok(defaultValue)
    else Err(InvalidBoolean)
  }

  /** The words are case-sensitive and the empty string is no word. */
  lemma IsTrueRejects(defaultValue: bool)
    ensures IsTrue(Some("TRUE"), defaultValue) == Err(InvalidBoolean)
    ensures IsTrue(Some(""), defaultValue) == Err(InvalidBoolean)
    ensures IsTrue(Some("True"), defaultValue) == Err(InvalidBoolean)
  {
  }

  /** `String(v)`: an absent variable is the string "undefined". */
  function ToJsString(v: Option<string>): (s: string)
    ensures v.Some? ==> s == v.value
  {
    if v.Some? then v.value else "undefined"
  }

  /** JavaScript truthiness of an optional string. */
  predicate Truthy(v: Option<string>) {
    v.Some? && v.value != ""
  }

  datatype RawEnv = RawEnv(
    nodeEnv: Option<string>, port: Option<string>, corsOrigin: Option<string>,
    cookieSecret: Option<string>, sessionSecret: Option<string>, sessionStoragePath: Option<string>,
    sessionTimeout: Option<string>, redisUrl: Option<string>,
    statusLocalSignup: Option<string>, statusLocalSignin: Option<string>)

  /** `IConfig`; a `None` timeout is NaN. */
  datatype Config = Config(
    nodeEnv: string, port: int, corsOrigin: string,
    cookieSecret: Option<string>, sessionSecret: Option<string>, sessionStoragePath: Option<string>,
    sessionTimeout: Option<int>, redisUrl: Option<string>,
    localSignup: bool, localSignin: bool)

  /** `parseInt(raw.PORT) || 3000`: NaN and zero both fall back. */
  function Port(raw: Option<string>): (p: int)
    ensures p != 0
    ensures var n := JsParseInt.ParseInt(ToJsString(raw));
            && (n.None? || n == Some(0) ==> p == 3000)
            && (n.Some? && n.value != 0 ==> p == n.value)
  {
    match JsParseInt.ParseInt(ToJsString(raw))
    case Some(n) => if n == 0 then 3000 else n
    case None => 3000
  }

  /** `x` occurs in `s` at index `k`. */
  predicate OccursAt(s: string, x: string, k: nat) {
    k + |x| <= |s| && s[k..k + |x|] == x
  }

  /** `s.includes(x)`. */
  predicate Occurs(s: string, x: string) {
    exists k: nat :: k <= |s| && OccursAt(s, x, k)
  }

  const ValidationFailed := "Validation failed for "

  /** The configuration record the raw environment is read into, before
      validation; only a malformed flag can make this fail. */
  function Read(raw: RawEnv): (r: Result<Config, Error>)
    ensures r.Err? <==> IsTrue(raw.statusLocalSignup, true).Err? || IsTrue(raw.statusLocalSignin, true).Err?
    ensures r.Err? ==> r.error == InvalidBoolean
    ensures r.Ok? ==> var c := r.value;
              && (Truthy(raw.nodeEnv) ==> c.nodeEnv == raw.nodeEnv.value)
              && (!Truthy(raw.nodeEnv) ==> c.nodeEnv == "development")
              && (Truthy(raw.corsOrigin) ==> c.corsOrigin == raw.corsOrigin.value)
              && (!Truthy(raw.corsOrigin) ==> c.corsOrigin == "*")
              && c.port == Port(raw.port)
              && (raw.statusLocalSignup.None? ==> c.localSignup)
              && (raw.statusLocalSignin.None? ==> c.localSignin)
              && (raw.statusLocalSignup.Some? ==> (c.localSignup <==> raw.statusLocalSignup.value in TrueWords))
              && (raw.statusLocalSignin.Some? ==> (c.localSignin <==> raw.statusLocalSignin.value in TrueWords))
              && c.cookieSecret == raw.cookieSecret && c.sessionSecret == raw.sessionSecret
              && c.sessionStoragePath == raw.sessionStoragePath && c.redisUrl == raw.redisUrl
              && c.sessionTimeout == JsParseInt.ParseInt(ToJsString(raw.sessionTimeout))
  {
    var localSignup :- IsTrue(raw.statusLocalSignup, true);
    var localSignin :- IsTrue(raw.statusLocalSignin, true);
    Ok(Config(
      if Truthy(raw.nodeEnv) then raw.nodeEnv.value else "development",
      Port(raw.port),
      if Truthy(raw.corsOrigin) then raw.corsOrigin.value else "*",
      raw.cookieSecret, raw.sessionSecret, raw.sessionStoragePath,
      JsParseInt.ParseInt(ToJsString(raw.sessionTimeout)), raw.redisUrl,
      localSignup, localSignin))
  }

  /** The message of the BadRequest: every failing path is named in it. */
  function FailureMessage(paths: seq<string>): (m: string)
    ensures ValidationFailed <= m
    ensures forall i :: 0 <= i < |paths| ==> Occurs(m, paths[i])
  {
    MessageNamesEvery(paths);
    ValidationFailed + Text.Join(paths, ", ")
  }

  lemma MessageNamesEvery(paths: seq<string>)
    ensures forall i :: 0 <= i < |paths| ==> Occurs(ValidationFailed + Text.Join(paths, ", "), paths[i])
  {
    var joined := Text.Join(paths, ", ");
    var msg := ValidationFailed + joined;
    forall i | 0 <= i < |paths| ensures Occurs(msg, paths[i]) {
      var k := JoinHasEveryPart(paths, ", ", i);
      var off := |ValidationFailed|;
      assert msg[off + k..off + k + |paths[i]|] == joined[k..k + |paths[i]|];
      assert OccursAt(msg, paths[i], off + k);
    }
  }

  /** `check` is the generated validator: the paths of the fields it finds
      wrong, none when the record is valid. */
  function Validate(raw: RawEnv, check: Config -> seq<string>): (r: Result<Config, Error>)
    ensures Read(raw).Err? ==> r == Err(InvalidBoolean)
    ensures Read(raw).Ok? ==>
              var c := Read(raw).value;
              && (r.Ok? <==> check(c) == [])
              && (r.Ok? ==> r.value == c)
              && (r.Err? ==> r.error == BadRequestError(FailureMessage(check(c))))
  {
    var config :- Read(raw);
    var paths := check(config);
    if paths == [] then Ok(config) else Err(BadRequestError(FailureMessage(paths)))
  }

  /** Each part of a join occurs in it, at the index returned. */
  lemma {:induction false} JoinHasEveryPart(parts: seq<string>, sep: string, i: nat) returns (k: nat)
    requires i < |parts|
    ensures OccursAt(Text.Join(parts, sep), parts[i], k)
  {
    Text.JoinPrefix(parts, sep);
    var j := Text.Join(parts, sep);
    if i == 0 {
      assert j[0..|parts[0]|] == parts[0];
      k := 0;
    } else {
      var tail := Text.Join(parts[1..], sep);
      var kt := JoinHasEveryPart(parts[1..], sep, i - 1);
      assert parts[1..][i - 1] == parts[i];
      var off := |parts[0]| + |sep|;
      assert j == parts[0] + sep + tail;
      assert j[off + kt..off + kt + |parts[i]|] == tail[kt..kt + |parts[i]|];
      k := off + kt;
    }
  }

  /** With nothing set, the defaults apply: development, port 3000, any
      origin, both local flows on. */
  lemma DefaultsApply(raw: RawEnv)
    requires raw.nodeEnv.None? && raw.port.None? && raw.corsOrigin.None?
    requires raw.statusLocalSignup.None? && raw.statusLocalSignin.None?
    ensures var r := Read(raw);
            && r.Ok? && r.value.nodeEnv == "development" && r.value.port == 3000
            && r.value.corsOrigin == "*" && r.value.localSignup && r.value.localSignin
  {
    JsParseInt.UndefinedIsNaN();
  }
}

/** `configSchema` in `src/schemas/config.schema.ts`: the zod schema of the
    configuration as `ConfigService` hands it out. A field left out takes
    its default, and the default then passes the same checks. */
module ConfigSchema {
  import opened Wrappers

  datatype RawConfig = RawConfig(
    nodeEnv: Option<string>, port: Option<real>, corsOrigin: Option<string>,
    cookieDomain: Option<string>, cookieSecret: Option<string>, sessionName: Option<string>,
    sessionTimeout: Option<real>, sessionStorageUrl: Option<string>,
    statusLocalSignup: Option<bool>, statusLocalSignin: Option<bool>,
    emailConfirmationJwtSecret: Option<string>, jwtSecret: Option<string>,
    autoMailerUrl: Option<string>, confirmEmailUrl: Option<string>)

  datatype Config = Config(
    nodeEnv: string, port: nat, corsOrigin: string, cookieDomain: string, cookieSecret: string,
    sessionName: string, sessionTimeout: nat, sessionStorageUrl: string,
    statusLocalSignup: bool, statusLocalSignin: bool,
    emailConfirmationJwtSecret: string, jwtSecret: string,
    autoMailerUrl: string, confirmEmailUrl: string)

  const Environments: set<string> := {"development", "production", "test"}

  /** `toLowerCase` on the ASCII letters; every other character is kept. */
  function ToLower(s: string): (t: string)
    ensures |t| == |s|
    ensures forall i :: 0 <= i < |s| ==> t[i] == (if 'A' <= s[i] <= 'Z' then (s[i] as int + 32) as char else s[i])
  {
    if s == "" then "" else
      [if 'A' <= s[0] <= 'Z' then (s[0] as int + 32) as char else s[0]] + ToLower(s[1..])
  }

  /** A string without upper-case ASCII letters is its own lower case. */
  lemma {:induction false} LowerIsFixed(s: string)
    requires forall i :: 0 <= i < |s| ==> !('A' <= s[i] <= 'Z')
    ensures ToLower(s) == s
  {
    if s != "" {
      LowerIsFixed(s[1..]);
      assert [s[0]] + s[1..] == s;
    }
  }

  /** `NODE_ENV`: non-empty, lower-cased, one of the three environments. */
  function NodeEnv(v: Option<string>): (r: Option<string>)
    ensures r.Some? ==> r.value in Environments
    ensures v.None? ==> r == Some("development")
    ensures v.Some? ==> (r.Some? <==> v.value != "" && ToLower(v.value) in Environments)
    ensures v.Some? && r.Some? ==> r.value == ToLower(v.value)
  {
    var x := v.GetOr("development");
    LowerIsFixed("development");
    if x == "" then None
    else
      var lower := ToLower(x);
      if lower in Environments then Some(lower) else None
  }

  /** `z.number().int().positive().default(d)`. */
  function PositiveInt(v: Option<real>, d: nat): (r: Option<nat>)
    requires d > 0
    ensures r.Some? ==> r.value > 0
    ensures v.None? ==> r == Some(d)
    ensures v.Some? ==> (r.Some? <==> v.value > 0.0 && v.value == v.value.Floor as real)
    ensures v.Some? && r.Some? ==> r.value as real == v.value
  {
    var x := v.GetOr(d as real);
    if x == x.Floor as real && x > 0.0 then Some(x.Floor) else None
  }

  /** A string with at least `min` characters, `d` when absent. */
  function MinString(v: Option<string>, d: Option<string>, min: nat): (r: Option<string>)
    ensures r.Some? ==> |r.value| >= min
    ensures v.Some? ==> (r.Some? <==> |v.value| >= min) && (r.Some? ==> r.value == v.value)
    ensures v.None? && d.Some? && |d.value| >= min ==> r == d
    ensures v.None? && d.None? ==> r.None?
  {
    var x := if v.Some? then v else d;
    if x.Some? && |x.value| >= min then x else None
  }

  /** The keys that fail, in the order the schema declares them; `isUrl` is
      zod's URL format check. */
  function Failures(raw: RawConfig, isUrl: string -> bool): (keys: seq<string>)
    ensures keys == [] <==>
              && NodeEnv(raw.nodeEnv).Some? && PositiveInt(raw.port, 3000).Some?
              && MinString(raw.cookieSecret, Some("cookie_secret"), 8).Some?
              && PositiveInt(raw.sessionTimeout, 3600).Some?
              && MinString(raw.emailConfirmationJwtSecret, None, 8).Some?
              && MinString(raw.jwtSecret, None, 8).Some?
              && raw.autoMailerUrl.Some? && raw.confirmEmailUrl.Some? && isUrl(raw.confirmEmailUrl.value)
  {
    (if NodeEnv(raw.nodeEnv).None? then ["NODE_ENV"] else [])
    + (if PositiveInt(raw.port, 3000).None? then ["PORT"] else [])
    + (if MinString(raw.cookieSecret, Some("cookie_secret"), 8).None? then ["COOKIE_SECRET"] else [])
    + (if PositiveInt(raw.sessionTimeout, 3600).None? then ["SESSION_TIMEOUT"] else [])
    + (if MinString(raw.emailConfirmationJwtSecret, None, 8).None? then ["EMAIL_CONFIRMATION_JWT_SECRET"] else [])
    + (if MinString(raw.jwtSecret, None, 8).None? then ["JWT_SECRET"] else [])
    + (if raw.autoMailerUrl.None? then ["AUTO_MAILER_URL"] else [])
    + (if raw.confirmEmailUrl.None? || !isUrl(raw.confirmEmailUrl.value) then ["CONFIRM_EMAIL_URL"] else [])
  }

  function Parse(raw: RawConfig, isUrl: string -> bool): (r: Result<Config, seq<string>>)
    ensures r.Err? <==> Failures(raw, isUrl) != []
    ensures r.Err? ==> r.error == Failures(raw, isUrl)
    ensures r.Ok? ==> var c := r.value;
              && c.nodeEnv in Environments && c.port > 0 && c.sessionTimeout > 0
              && |c.cookieSecret| >= 8 && |c.emailConfirmationJwtSecret| >= 8 && |c.jwtSecret| >= 8
              && (raw.port.None? ==> c.port == 3000)
              && (raw.sessionTimeout.None? ==> c.sessionTimeout == 3600)
              && (raw.cookieSecret.None? ==> c.cookieSecret == "cookie_secret")
              && (raw.statusLocalSignup.None? ==> c.statusLocalSignup)
              && (raw.statusLocalSignin.None? ==> c.statusLocalSignin)
              && (raw.corsOrigin.None? ==> c.corsOrigin == "*")
              && (raw.corsOrigin.Some? ==> c.corsOrigin == raw.corsOrigin.value)
              // a value that was given survives, lower-cased for NODE_ENV
              && (raw.nodeEnv.None? ==> c.nodeEnv == "development")
              && (raw.nodeEnv.Some? ==> c.nodeEnv == ToLower(raw.nodeEnv.value))
              && (raw.port.Some? ==> c.port as real == raw.port.value)
              && (raw.sessionTimeout.Some? ==> c.sessionTimeout as real == raw.sessionTimeout.value)
              && (raw.cookieSecret.Some? ==> c.cookieSecret == raw.cookieSecret.value)
              && (raw.cookieDomain.Some? ==> c.cookieDomain == raw.cookieDomain.value)
              && (raw.cookieDomain.None? ==> c.cookieDomain == "localhost")
              && (raw.sessionName.Some? ==> c.sessionName == raw.sessionName.value)
              && (raw.sessionName.None? ==> c.sessionName == "sid")
              && (raw.sessionStorageUrl.Some? ==> c.sessionStorageUrl == raw.sessionStorageUrl.value)
              && (raw.sessionStorageUrl.None? ==> c.sessionStorageUrl == "redis://localhost:6379")
              && (raw.statusLocalSignup.Some? ==> c.statusLocalSignup == raw.statusLocalSignup.value)
              && (raw.statusLocalSignin.Some? ==> c.statusLocalSignin == raw.statusLocalSignin.value)
              && Some(c.emailConfirmationJwtSecret) == raw.emailConfirmationJwtSecret
              && Some(c.jwtSecret) == raw.jwtSecret
              && Some(c.autoMailerUrl) == raw.autoMailerUrl
              && Some(c.confirmEmailUrl) == raw.confirmEmailUrl && isUrl(c.confirmEmailUrl)
  {
    var keys := Failures(raw, isUrl);
    if keys != [] then Err(keys)
    else Ok(Config(
      NodeEnv(raw.nodeEnv).value, PositiveInt(raw.port, 3000).value, raw.corsOrigin.GetOr("*"),
      raw.cookieDomain.GetOr("localhost"), MinString(raw.cookieSecret, Some("cookie_secret"), 8).value,
      raw.sessionName.GetOr("sid"), PositiveInt(raw.sessionTimeout, 3600).value,
      raw.sessionStorageUrl.GetOr("redis://localhost:6379"),
      raw.statusLocalSignup.GetOr(true), raw.statusLocalSignin.GetOr(true),
      raw.emailConfirmationJwtSecret.value, raw.jwtSecret.value,
      raw.autoMailerUrl.value, raw.confirmEmailUrl.value))
  }

  /** What `configSchema` accepts as a finished configuration. */
  predicate Valid(c: Config, isUrl: string -> bool) {
    && c.nodeEnv in Environments && c.port > 0 && c.sessionTimeout > 0
    && |c.cookieSecret| >= 8 && |c.emailConfirmationJwtSecret| >= 8 && |c.jwtSecret| >= 8
    && isUrl(c.confirmEmailUrl)
  }

  /** The environment that sets every variable to the value in `c`. */
  function ToRaw(c: Config): (raw: RawConfig)
    ensures raw.port == Some(c.port as real) && raw.nodeEnv == Some(c.nodeEnv)
  {
    RawConfig(Some(c.nodeEnv), Some(c.port as real), Some(c.corsOrigin), Some(c.cookieDomain),
              Some(c.cookieSecret), Some(c.sessionName), Some(c.sessionTimeout as real),
              Some(c.sessionStorageUrl), Some(c.statusLocalSignup), Some(c.statusLocalSignin),
              Some(c.emailConfirmationJwtSecret), Some(c.jwtSecret), Some(c.autoMailerUrl),
              Some(c.confirmEmailUrl))
  }

  lemma OneOfThree(x: string)
    requires x in Environments
    ensures x == "development" || x == "production" || x == "test"
  {
  }

  /** An environment name given as it is stands for itself. */
  lemma NodeEnvKeeps(x: string)
    requires x in Environments
    ensures NodeEnv(Some(x)) == Some(x)
  {
    OneOfThree(x);
    EnvironmentsAreLower(x);
  }

  /** The three environment names are already lower case. */
  lemma EnvironmentsAreLower(x: string)
    requires x == "development" || x == "production" || x == "test"
    ensures ToLower(x) == x
  {
    if x == "development" { DevelopmentIsLower(); }
    else if x == "production" { ProductionIsLower(); }
    else { TestIsLower(); }
  }

  lemma DevelopmentIsLower()
    ensures ToLower("development") == "development"
  {
    LowerIsFixed("development");
  }

  lemma ProductionIsLower()
    ensures ToLower("production") == "production"
  {
    LowerIsFixed("production");
  }

  lemma TestIsLower()
    ensures ToLower("test") == "test"
  {
    LowerIsFixed("test");
  }

  /** Parsing an environment that spells out a valid configuration gives
      that configuration back, and only valid configurations come out of a
      parse: the schema accepts exactly the valid configurations. */
  lemma ParseToRaw(c: Config, isUrl: string -> bool)
    ensures Valid(c, isUrl) <==> Parse(ToRaw(c), isUrl) == Ok(c)
  {
    if Valid(c, isUrl) {
      var raw := ToRaw(c);
      NodeEnvKeeps(c.nodeEnv);
      assert PositiveInt(raw.port, 3000) == Some(c.port);
      assert PositiveInt(raw.sessionTimeout, 3600) == Some(c.sessionTimeout);
      assert Failures(raw, isUrl) == [];
    }
  }

  /** A parsed configuration, written back into the environment, parses to
      itself. */
  lemma ParseIsIdempotent(raw: RawConfig, isUrl: string -> bool)
    requires Parse(raw, isUrl).Ok?
    ensures var c := Parse(raw, isUrl).value;
            Valid(c, isUrl) && Parse(ToRaw(c), isUrl) == Ok(c)
  {
    ParseToRaw(Parse(raw, isUrl).value, isUrl);
  }

  /** Upper case is accepted and stored lower-cased. */
  lemma UpperCaseAccepted()
    ensures NodeEnv(Some("Test")) == Some("test")
  {
    var t := ToLower("Test");
    assert t[0] == 't' && t[1] == 'e' && t[2] == 's' && t[3] == 't';
    assert t == "test";
  }

  /** The empty string is not an environment, although leaving the
      variable out is; nor is any word but the three. */
  lemma OtherWordsRejected()
    ensures NodeEnv(Some("")) == None
    ensures NodeEnv(Some("staging")) == None
  {
    LowerIsFixed("staging");
  }
}
