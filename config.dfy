/** Start-up configuration (internal/config/config.go). The process environment is a
    parameter `env` (an unset variable reads as ""), and time.ParseDuration, whose unit
    grammar is not part of this model, is a parameter `parseDuration`. */
module Config {
  import opened Wrappers
  import opened Domain
  import opened GoStrings

  type Environment = string -> string
  type DurationParser = string -> Option<int>

  /** Go's `int` on the 64-bit platforms the service is built for. */
  const MinInt: int := -0x8000_0000_0000_0000
  const MaxInt: int := 0x7FFF_FFFF_FFFF_FFFF

  /** getenv: the variable's value, or the default when it is unset or empty. */
  function Getenv(env: Environment, key: string, def: string): (v: string)
    ensures env(key) == "" ==> v == def
    ensures env(key) != "" ==> v == env(key)
  {
    var v := env(key);
    if v == "" then def else v
  }

  // ---------------------------------------------------------------- strconv.Atoi

  predicate IsDigit(c: char)
  {
    '0' <= c <= '9'
  }

  predicate AllDigits(s: string)
  {
    forall i | 0 <= i < |s| :: IsDigit(s[i])
  }

  function DigitValue(c: char): (d: nat)
    requires IsDigit(c)
    ensures d < 10
  {
    (c as int - '0' as int) as nat
  }

  function DigitChar(d: nat): (c: char)
    requires d < 10
    ensures IsDigit(c) && DigitValue(c) == d
  {
    ('0' as int + d) as char
  }

  /** The value of a string of decimal digits, read left to right (n = n*10 + digit). */
  function DecimalValue(s: string): nat
    requires AllDigits(s)
    decreases |s|
  {
    if s == [] then 0 else DecimalValue(s[..|s| - 1]) * 10 + DigitValue(s[|s| - 1])
  }

  /** strconv.Atoi in base 10: an optional sign and at least one decimal digit, with no
      spaces or underscores, whose value fits a 64-bit int. */
  function Atoi(s: string): (r: Option<int>)
    ensures r.Some? ==> MinInt <= r.value <= MaxInt
    ensures r.Some? ==> s != "" && (IsDigit(s[0]) || s[0] == '-' || s[0] == '+') && AllDigits(s[1..])
    ensures s != "" && !IsDigit(s[0]) && s[0] != '-' && s[0] != '+' ==> r.None?
  {
    var signed := |s| > 0 && (s[0] == '-' || s[0] == '+');
    var digits := if signed then s[1..] else s;
    if digits == [] || !AllDigits(digits) then None
    else
      var magnitude: int := DecimalValue(digits);
      var n: int := if signed && s[0] == '-' then -magnitude else magnitude;
      if MinInt <= n <= MaxInt then Some(n) else None
  }

  /** The decimal digits of a natural number, most significant first. */
  function DecimalDigits(n: nat): (s: string)
    ensures s != [] && AllDigits(s)
    decreases n
  {
    if n < 10 then [DigitChar(n)] else DecimalDigits(n / 10) + [DigitChar(n % 10)]
  }

  /** strconv.Itoa, the inverse Atoi is checked against. */
  function Itoa(n: int): (s: string)
    ensures s != []
  {
    if n < 0 then "-" + DecimalDigits(-n) else DecimalDigits(n)
  }

  lemma {:induction false} DecimalValueOfDigits(n: nat)
    ensures DecimalValue(DecimalDigits(n)) == n
    decreases n
  {
    if n >= 10 {
      var s := DecimalDigits(n);
      assert s[..|s| - 1] == DecimalDigits(n / 10);
      DecimalValueOfDigits(n / 10);
    }
  }

  /** Atoi reads back every 64-bit int that Itoa writes. */
  lemma AtoiOfItoa(n: int)
    requires MinInt <= n <= MaxInt
    ensures Atoi(Itoa(n)) == Some(n)
  {
    if n < 0 {
      var s := Itoa(n);
      assert s[1..] == DecimalDigits(-n);
      DecimalValueOfDigits(-n);
    } else {
      DecimalValueOfDigits(n);
    }
  }

  /** getInt: the variable parsed with Atoi, or the default when it is empty or malformed. */
  function GetInt(env: Environment, key: string, def: int): (v: int)
    ensures env(key) == "" || Atoi(env(key)).None? ==> v == def
    ensures Atoi(env(key)).Some? ==> v == Atoi(env(key)).value
  {
    var s := env(key);
    if s == "" then def
    else match Atoi(s)
      case None => def
      case Some(n) => n
  }

  /** A variable set to the decimal form of a 64-bit int yields exactly that int. */
  lemma GetIntReadsDecimal(env: Environment, key: string, def: int, n: int)
    requires MinInt <= n <= MaxInt && env(key) == Itoa(n)
    ensures GetInt(env, key, def) == n
  {
    AtoiOfItoa(n);
  }

  /** getDuration: the variable parsed as a duration, or the default when it is empty or
      malformed. */
  function GetDuration(env: Environment, key: string, def: int, parseDuration: DurationParser): (v: int)
    ensures env(key) == "" || parseDuration(env(key)).None? ==> v == def
    ensures env(key) != "" && parseDuration(env(key)).Some? ==> v == parseDuration(env(key)).value
  {
    var s := env(key);
    if s == "" then def
    else match parseDuration(s)
      case None => def
      case Some(d) => d
  }

  // ---------------------------------------------------------------- normalizePEM

  /** A backslash followed by the letter n starts at position i. */
  predicate EscapeAt(s: string, i: int)
    requires 0 <= i < |s| - 1
  {
    s[i] == '\\' && s[i + 1] == 'n'
  }

  /** No backslash is followed by the letter n. */
  predicate NoEscapedNewline(s: string)
  {
    forall i | 0 <= i < |s| - 1 :: !EscapeAt(s, i)
  }

  /** strings.ReplaceAll(s, `\n`, "\n"): each two-character escape, scanned left to right
      without overlap, becomes a newline. */
  function UnescapeNewlines(s: string): (r: string)
    ensures |r| <= |s|
    decreases |s|
  {
    if |s| < 2 then s
    else if s[0] == '\\' && s[1] == 'n' then "\n" + UnescapeNewlines(s[2..])
    else [s[0]] + UnescapeNewlines(s[1..])
  }

  /** A replaced escape becomes a newline, so the result starts with `n` only where the input does. */
  lemma UnescapeKeepsLeadingN(s: string)
    requires UnescapeNewlines(s) != [] && UnescapeNewlines(s)[0] == 'n'
    ensures s != [] && s[0] == 'n'
  {
  }

  /** The replacement never leaves an escape behind, not even one formed across a
      replaced pair. */
  lemma {:induction false} UnescapeLeavesNoEscape(s: string)
    ensures NoEscapedNewline(UnescapeNewlines(s))
    decreases |s|
  {
    if |s| >= 2 {
      var tail := if s[0] == '\\' && s[1] == 'n' then s[2..] else s[1..];
      var r, rest := UnescapeNewlines(s), UnescapeNewlines(tail);
      assert r == [r[0]] + rest;
      UnescapeLeavesNoEscape(tail);
      if rest != [] && rest[0] == 'n' {
        UnescapeKeepsLeadingN(tail);
      }
      forall i | 0 <= i < |r| - 1 ensures !EscapeAt(r, i) {
        if i > 0 {
          assert !EscapeAt(rest, i - 1);
        }
      }
    }
  }

  /** How a key with real newlines is written into a one-line environment variable. */
  function EscapeNewlines(t: string): (r: string)
    ensures |r| >= |t|
    ensures r != [] ==> t != [] && (r[0] == 'n' <==> t[0] == 'n')
  {
    if t == [] then []
    else if t[0] == '\n' then "\\n" + EscapeNewlines(t[1..])
    else [t[0]] + EscapeNewlines(t[1..])
  }

  /** Replacing the escapes undoes EscapeNewlines on any text that has none of its own. */
  lemma {:induction false} UnescapeOfEscape(t: string)
    requires NoEscapedNewline(t)
    ensures UnescapeNewlines(EscapeNewlines(t)) == t
  {
    if t != [] {
      var rest := EscapeNewlines(t[1..]);
      assert NoEscapedNewline(t[1..]) by {
        forall i | 0 <= i < |t[1..]| - 1 ensures !EscapeAt(t[1..], i) {
          assert !EscapeAt(t, i + 1);
        }
      }
      UnescapeOfEscape(t[1..]);
      if t[0] == '\n' {
        assert EscapeNewlines(t) == "\\n" + rest;
        assert ("\\n" + rest)[2..] == rest;
      } else {
        assert EscapeNewlines(t) == [t[0]] + rest;
        assert ([t[0]] + rest)[1..] == rest;
        if t[0] == '\\' && rest != [] {
          assert !EscapeAt(t, 0);
        }
      }
    }
  }

  /** normalizePEM: an empty value stays empty; otherwise trim, drop one surrounding double
      quote at each end, turn escaped newlines into newlines and trim again. */
  function NormalizePEM(v: string): (r: string)
    ensures v == "" ==> r == ""
    ensures Trimmed(r) && |r| <= |v|
  {
    if v == "" then v
    else
      var trimmed := TrimSpace(v);
      var unquoted := TrimSuffix(TrimPrefix(trimmed, "\""), "\"");
      TrimSpace(UnescapeNewlines(unquoted))
  }

  /** A slice of a text without escapes has none either. */
  lemma NoEscapedNewlineSlice(s: string, k: nat, n: nat)
    requires k + n <= |s| && NoEscapedNewline(s)
    ensures NoEscapedNewline(s[k..k + n])
  {
    var t := s[k..k + n];
    forall i | 0 <= i < |t| - 1 ensures !EscapeAt(t, i) {
      assert !EscapeAt(s, k + i);
    }
  }

  /** The normalised key contains no escaped newline. */
  lemma NormalizePEMLeavesNoEscape(v: string)
    ensures NoEscapedNewline(NormalizePEM(v))
  {
    if v != "" {
      var unquoted := TrimSuffix(TrimPrefix(TrimSpace(v), "\""), "\"");
      var d := UnescapeNewlines(unquoted);
      assert NormalizePEM(v) == TrimSpace(d);
      UnescapeLeavesNoEscape(unquoted);
      TrimSpaceLeavesNoEscape(d);
    }
  }

  lemma TrimSpaceLeavesNoEscape(d: string)
    requires NoEscapedNewline(d)
    ensures NoEscapedNewline(TrimSpace(d))
  {
    var l := TrimLeftSpace(d);
    NoEscapedNewlineSlice(d, |d| - |l|, |l|);
    assert d[|d| - |l|..|d| - |l| + |l|] == l;
    var r := TrimRightSpace(l);
    NoEscapedNewlineSlice(l, 0, |r|);
    assert TrimSpace(d) == r;
  }

  /** A trimmed key, escaped and wrapped in double quotes for the environment, is
      restored exactly. */
  lemma NormalizePEMOfQuotedEscaped(pem: string)
    requires Trimmed(pem) && NoEscapedNewline(pem)
    ensures NormalizePEM("\"" + EscapeNewlines(pem) + "\"") == pem
  {
    var e := EscapeNewlines(pem);
    var v := "\"" + e + "\"";
    assert Trimmed(v);
    TrimSpaceOfTrimmed(v);
    Unquote(e);
    UnescapeOfEscape(pem);
    TrimSpaceOfTrimmed(pem);
  }

  /** One double quote is dropped from each end. */
  lemma Unquote(e: string)
    ensures TrimSuffix(TrimPrefix("\"" + e + "\"", "\""), "\"") == e
  {
    var v := "\"" + e + "\"";
    assert v[..1] == "\"" && v[1..] == e + "\"";
    var w := e + "\"";
    assert w[|w| - 1..] == "\"" && w[..|w| - 1] == e;
  }

  // ---------------------------------------------------------------- Load

  datatype Config = Config(
    env: string, port: string, dbDsn: string, redisAddr: string,
    trustPinBaseUrl: string, trustPinApiKey: string,
    jwtIssuer: string, jwtAudience: string,
    jwtPublicKeyPem: string, jwtPrivateKeyPem: string,
    httpTimeout: int, retryMax: int, retryBackoff: int)

  /** Load: every setting read from its variable with its default. */
  function Load(env: Environment, parseDuration: DurationParser): (c: Config)
    ensures env("APP_ENV") == "" ==> c.env == "dev"
    ensures env("PORT") == "" ==> c.port == "8080"
    ensures c.dbDsn == env("DB_DSN") && c.redisAddr == env("REDIS_ADDR") && c.trustPinApiKey == env("TRUSTPIN_API_KEY")
    ensures env("TRUSTPIN_BASE_URL") == "" ==> c.trustPinBaseUrl == "http://trustpin.kaizen3.online"
    ensures env("JWT_ISSUER") == "" ==> c.jwtIssuer == "trustpin"
    ensures env("JWT_AUDIENCE") == "" ==> c.jwtAudience == "mobile"
    ensures env("JWT_PUBLIC_KEY") == "" ==> c.jwtPublicKeyPem == ""
    ensures Trimmed(c.jwtPublicKeyPem) && Trimmed(c.jwtPrivateKeyPem)
    ensures env("HTTP_TIMEOUT") == "" ==> c.httpTimeout == 5 * Second
    ensures env("RETRY_MAX") == "" ==> c.retryMax == 2
    ensures env("RETRY_BACKOFF") == "" ==> c.retryBackoff == 200 * Millisecond
  {
    Config(
      Getenv(env, "APP_ENV", "dev"),
      Getenv(env, "PORT", "8080"),
      Getenv(env, "DB_DSN", ""),
      Getenv(env, "REDIS_ADDR", ""),
      Getenv(env, "TRUSTPIN_BASE_URL", "http://trustpin.kaizen3.online"),
      Getenv(env, "TRUSTPIN_API_KEY", ""),
      Getenv(env, "JWT_ISSUER", "trustpin"),
      Getenv(env, "JWT_AUDIENCE", "mobile"),
      NormalizePEM(Getenv(env, "JWT_PUBLIC_KEY", "")),
      NormalizePEM(Getenv(env, "JWT_PRIVATE_KEY", "")),
      GetDuration(env, "HTTP_TIMEOUT", 5 * Second, parseDuration),
      GetInt(env, "RETRY_MAX", 2),
      GetDuration(env, "RETRY_BACKOFF", 200 * Millisecond, parseDuration))
  }
}
