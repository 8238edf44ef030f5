/**
 * The two decisions of the server set-up that are modelled: which request
 * origins CORS lets through, and the rate limiter's window and request cap,
 * read from the environment with `parseInt(...) || default`.
 */
module Server {
  import opened Wrappers
  import opened Strings
  import opened Env

  // parseInt(s) with no radix, on integers of unbounded size.

  /** The value of a digit in base 16, when `c` is one. */
  function HexDigit(c: char): Option<nat> {
    if '0' <= c <= '9' then Some(c as int - '0' as int)
    else if 'a' <= c <= 'f' then Some(c as int - 'a' as int + 10)
    else if 'A' <= c <= 'F' then Some(c as int - 'A' as int + 10)
    else None
  }

  /** `c` is a digit in base `radix` (10 or 16). */
  predicate IsDigitIn(c: char, radix: nat) {
    HexDigit(c).Some? && HexDigit(c).value < radix
  }

  /** The number of base-`radix` digits in `s` from position `from` on. */
  function DigitRun(s: string, radix: nat, from: nat): (n: nat)
    requires from <= |s|
    ensures from + n <= |s|
    decreases |s| - from
  {
    if from < |s| && IsDigitIn(s[from], radix) then 1 + DigitRun(s, radix, from + 1) else 0
  }

  /** The run `DigitRun` measures is all digits and cannot be extended. */
  lemma {:induction false} DigitRunMaximal(s: string, radix: nat, from: nat)
    requires from <= |s|
    ensures var n := DigitRun(s, radix, from);
      && (forall i :: from <= i < from + n ==> IsDigitIn(s[i], radix))
      && (from + n == |s| || !IsDigitIn(s[from + n], radix))
    decreases |s| - from
  {
    if from < |s| && IsDigitIn(s[from], radix) {
      DigitRunMaximal(s, radix, from + 1);
    }
  }

  /** The number that the digits `s[from..to]` spell in base `radix`; a non-digit counts as 0. */
  function DigitsValue(s: string, radix: nat, from: nat, stop: nat): nat
    requires from <= stop <= |s|
    decreases stop
  {
    if stop <= from then 0
    else
      var d := HexDigit(s[stop - 1]);
      DigitsValue(s, radix, from, stop - 1) * radix + (if d.Some? then d.value else 0)
  }

  /** The length of the optional sign at position `a` of `t`. */
  function SignLength(t: string, a: nat): (k: nat)
    requires a <= |t|
    ensures a + k <= |t|
  {
    if a < |t| && (t[a] == '-' || t[a] == '+') then 1 else 0
  }

  /** `t` holds `0x` or `0X` at position `k`. */
  predicate HexPrefixAt(t: string, k: nat) {
    k + 2 <= |t| && t[k] == '0' && (t[k + 1] == 'x' || t[k + 1] == 'X')
  }

  /** The longest run of base-`radix` digits from position `k` on, read as a number; `None` when it is empty. */
  function DigitsFrom(t: string, radix: nat, k: nat): Option<nat>
    requires k <= |t|
  {
    var n := DigitRun(t, radix, k);
    if n == 0 then None else Some(DigitsValue(t, radix, k, k + n))
  }

  /**
   * `parseInt(s)`: leading whitespace skipped, an optional sign, then a `0x`
   * or `0X` prefix selecting base 16, then the longest run of digits; `NaN`,
   * when there is no digit, is `None`.
   */
  function ParseInt(s: string): Option<int> {
    var a := SpaceRun(s, 0);
    var k := a + SignLength(s, a);
    var m := if HexPrefixAt(s, k) then DigitsFrom(s, 16, k + 2) else DigitsFrom(s, 10, k);
    if m.None? then None
    else if a < |s| && s[a] == '-' then Some(-(m.value as int))
    else Some(m.value)
  }

  /** A numeric environment variable read as `parseInt(v) || fallback`: `NaN` and 0 both fall back. */
  function ParseOrDefault(v: Option<string>, fallback: int): (r: int)
    ensures v.Some? && ParseInt(v.value).Some? && ParseInt(v.value).value != 0 ==> r == ParseInt(v.value).value
    ensures v.None? || ParseInt(v.value).None? || ParseInt(v.value) == Some(0) ==> r == fallback
  {
    if v.None? then fallback
    else
      match ParseInt(v.value)
      case None => fallback
      case Some(n) => if n == 0 then fallback else n
  }

  const DefaultWindowMs: int := 1 * 60 * 1000
  const DefaultMaxRequests: int := 20

  /** The limiter's `windowMs`. */
  function WindowMs(env: Env): int {
    ParseOrDefault(env.rateLimitWindowMs, DefaultWindowMs)
  }

  /** The limiter's `max`. */
  function MaxRequests(env: Env): int {
    ParseOrDefault(env.rateLimitMaxRequests, DefaultMaxRequests)
  }

  /** The same digits, wherever they stand, have the same value. */
  lemma {:induction false} DigitsValueShift(s: string, t: string, radix: nat, from: nat, len: nat)
    requires from + len <= |s| && len <= |t| && s[from..from + len] == t[..len]
    ensures DigitsValue(s, radix, from, from + len) == DigitsValue(t, radix, 0, len)
    decreases len
  {
    if len > 0 {
      assert s[from + len - 1] == s[from..from + len][len - 1];
      assert t[len - 1] == t[..len][len - 1];
      assert s[from..from + len - 1] == s[from..from + len][..len - 1];
      assert t[..len - 1] == t[..len][..len - 1];
      DigitsValueShift(s, t, radix, from, len - 1);
    }
  }

  /** The decimal rendering of `n` is all digits, and spells `n`. */
  lemma {:induction false} DecimalDigits(n: nat)
    ensures var d := NatToDecimal(n);
      && (forall i :: 0 <= i < |d| ==> IsDigitIn(d[i], 10))
      && DigitsValue(d, 10, 0, |d|) == n
    decreases n
  {
    var d := NatToDecimal(n);
    forall i | 0 <= i < |d|
      ensures IsDigitIn(d[i], 10)
    {
      assert '0' <= d[i] <= '9';
    }
    if n >= 10 {
      var p := NatToDecimal(n / 10);
      assert d == p + ['0' + (n % 10) as char];
      assert d[..|p|] == p;
      DecimalDigits(n / 10);
      DigitsValueShift(d, p, 10, 0, |p|);
    }
  }

  /** Digits `d` followed by `rest` at position `k` of `t`: `DigitRun` measures exactly `d`. */
  lemma DigitRunAt(t: string, k: nat, d: string, rest: string)
    requires forall i :: 0 <= i < |d| ==> IsDigitIn(d[i], 10)
    requires rest == [] || !IsDigitIn(rest[0], 10)
    requires k <= |t| && t[k..] == d + rest
    ensures DigitRun(t, 10, k) == |d|
  {
    forall i | k <= i < k + |d|
      ensures IsDigitIn(t[i], 10)
    {
      assert t[i] == (d + rest)[i - k] == d[i - k];
    }
    if k + |d| < |t| {
      assert t[k + |d|] == (d + rest)[|d|] == rest[0];
    }
    DigitRunIs(t, 10, k, |d|);
  }

  /** Digits `d` at position `k` of `t` keep their value there. */
  lemma DigitsValueAt(t: string, k: nat, d: string, rest: string)
    requires k <= |t| && t[k..] == d + rest
    ensures k + |d| <= |t| && DigitsValue(t, 10, k, k + |d|) == DigitsValue(d, 10, 0, |d|)
  {
    PrefixAt(t, k, d, rest);
    DigitsValueSlice(t, k, d);
  }

  /** Digits `d` standing at position `k` of `t` keep their value there. */
  lemma DigitsValueSlice(t: string, k: nat, d: string)
    requires k + |d| <= |t| && t[k..k + |d|] == d
    ensures DigitsValue(t, 10, k, k + |d|) == DigitsValue(d, 10, 0, |d|)
  {
    DigitsValueShift(t, d, 10, k, |d|);
  }

  /** `t[k..]` starting with `d` holds `d` at positions `k` to `k + |d|`. */
  lemma PrefixAt(t: string, k: nat, d: string, rest: string)
    requires k <= |t| && t[k..] == d + rest
    ensures k + |d| <= |t| && t[k..k + |d|] == d
  {
    assert t[k..k + |d|] == (d + rest)[..|d|];
  }

  /** A `0x` prefix at position `k` would need a lone `0` followed by an `x`. */
  lemma NoHexAt(t: string, k: nat, d: string, rest: string)
    requires d != [] && (d[0] == '0' ==> |d| == 1)
    requires rest == [] || d[0] != '0' || (rest[0] != 'x' && rest[0] != 'X')
    requires k <= |t| && t[k..] == d + rest
    ensures !HexPrefixAt(t, k)
  {
    assert t[k] == d[0];
    if |d| == 1 && rest != [] {
      assert t[k + 1] == rest[0];
    }
  }

  /** The run and the value together are what `DigitsFrom` reports. */
  lemma DigitsFromIs(t: string, k: nat, len: nat, v: nat)
    requires 0 < len && k + len <= |t|
    requires DigitRun(t, 10, k) == len && DigitsValue(t, 10, k, k + len) == v
    ensures DigitsFrom(t, 10, k) == Some(v)
  {
  }

  /** Decimal digits `d` worth `n`, with no superfluous leading `0`, followed by `rest`, read at position `k` of `t`. */
  lemma DigitsFromNumeral(t: string, k: nat, d: string, n: nat, rest: string)
    requires forall i :: 0 <= i < |d| ==> IsDigitIn(d[i], 10)
    requires d != [] && (d[0] == '0' ==> |d| == 1) && DigitsValue(d, 10, 0, |d|) == n
    requires rest == [] || (!IsDigitIn(rest[0], 10) && (d[0] == '0' ==> rest[0] != 'x' && rest[0] != 'X'))
    requires k <= |t| && t[k..] == d + rest
    ensures !HexPrefixAt(t, k)
    ensures DigitsFrom(t, 10, k) == Some(n)
  {
    DigitRunAt(t, k, d, rest);
    DigitsValueAt(t, k, d, rest);
    NoHexAt(t, k, d, rest);
    DigitsFromIs(t, k, |d|, n);
  }

  /** The decimal rendering of `n` is a numeral `DigitsFromNumeral` accepts. */
  lemma DecimalNumeral(n: nat)
    ensures var d := NatToDecimal(n);
      && (forall i :: 0 <= i < |d| ==> IsDigitIn(d[i], 10))
      && (d[0] == '0' ==> |d| == 1) && DigitsValue(d, 10, 0, |d|) == n
  {
    DecimalDigits(n);
  }

  /** `parseInt` on text with no leading space, a sign of length `k`, and a decimal run worth `n`. */
  lemma ParseSigned(s: string, k: nat, n: nat)
    requires s != [] && SpaceRun(s, 0) == 0 && SignLength(s, 0) == k && (k == 1 <==> s[0] == '-')
    requires !HexPrefixAt(s, k) && DigitsFrom(s, 10, k) == Some(n)
    ensures ParseInt(s) == Some(if k == 1 then -(n as int) else n)
  {
  }

  /** A run of `len` digits followed by a non-digit (or the end) is what `DigitRun` measures. */
  lemma DigitRunIs(s: string, radix: nat, from: nat, len: nat)
    requires from + len <= |s|
    requires forall i :: from <= i < from + len ==> IsDigitIn(s[i], radix)
    requires from + len == |s| || !IsDigitIn(s[from + len], radix)
    ensures DigitRun(s, radix, from) == len
  {
    DigitRunMaximal(s, radix, from);
  }

  /** `parseInt` on an optional `-` of length `k`, then a numeral `d` worth `n`, then `rest`. */
  lemma ParseNumeral(s: string, k: nat, d: string, n: nat, rest: string)
    requires k <= 1 && k <= |s| && s[k..] == d + rest && (k == 1 ==> s[0] == '-')
    requires forall i :: 0 <= i < |d| ==> IsDigitIn(d[i], 10)
    requires d != [] && (d[0] == '0' ==> |d| == 1) && DigitsValue(d, 10, 0, |d|) == n
    requires rest == [] || (!IsDigitIn(rest[0], 10) && (d[0] == '0' ==> rest[0] != 'x' && rest[0] != 'X'))
    ensures ParseInt(s) == Some(if k == 1 then -(n as int) else n)
  {
    DigitsFromNumeral(s, k, d, n, rest);
    assert s[k] == d[0];
    assert !IsJsSpace(s[0]) && s[0] != '+';
    assert SpaceRun(s, 0) == 0;
    ParseSigned(s, k, n);
  }

  /**
   * `parseInt` reads back the decimal rendering of an integer, also when
   * the rendering is followed by text that does not start with a digit and,
   * when the integer is 0, does not start with `x` or `X` either (which
   * would make a `0x` prefix).
   */
  lemma ParseIntOfDecimal(i: int, rest: string)
    requires rest == [] || (!IsDigitIn(rest[0], 10) && (i == 0 ==> rest[0] != 'x' && rest[0] != 'X'))
    ensures ParseInt(IntToDecimal(i) + rest) == Some(i)
  {
    var s := IntToDecimal(i) + rest;
    var n: nat := if i < 0 then -i else i;
    var k: nat := if i < 0 then 1 else 0;
    DecimalNumeral(n);
    AfterDecimal(i, n, rest);
    RenderingSplit(i, rest);
    ParseNumeral(s, k, NatToDecimal(n), n, rest);
  }

  /** The rendering of `i` is an optional `-` followed by the digits of its magnitude. */
  lemma RenderingSplit(i: int, rest: string)
    ensures var s := IntToDecimal(i) + rest; var k := if i < 0 then 1 else 0;
      && k <= |s| && s[k..] == NatToDecimal(if i < 0 then -i else i) + rest
      && (k == 1 ==> s[0] == '-')
  {
    if i < 0 {
      assert IntToDecimal(i) + rest == ['-'] + (NatToDecimal(-i) + rest);
    }
  }

  /** After a numeral other than `0`, an `x` simply ends the digits: `parseInt('5x')` is 5. */
  lemma ParseIntStopsBeforeX()
    ensures ParseInt("5x") == Some(5)
  {
    ParseIntOfDecimal(5, "x");
    assert IntToDecimal(5) + "x" == "5x";
  }

  /** Only the rendering of 0 starts with `0`, so the condition on `rest` carries over to its digits. */
  lemma AfterDecimal(i: int, n: nat, rest: string)
    requires n == if i < 0 then -i else i
    requires rest == [] || (!IsDigitIn(rest[0], 10) && (i == 0 ==> rest[0] != 'x' && rest[0] != 'X'))
    ensures var d := NatToDecimal(n);
      rest == [] || (!IsDigitIn(rest[0], 10) && (d[0] == '0' ==> rest[0] != 'x' && rest[0] != 'X'))
  {
  }

  /** A positive decimal numeral is taken as its value. */
  lemma ParseOrDefaultDecimal(n: nat, fallback: int)
    requires n > 0
    ensures ParseOrDefault(Some(NatToDecimal(n)), fallback) == n
  {
    ParseIntOfDecimal(n, []);
    assert IntToDecimal(n) + [] == NatToDecimal(n);
  }

  /** `parseInt('0')` is 0, which `||` replaces by the fallback. */
  lemma ParseOrDefaultZero(fallback: int)
    ensures ParseOrDefault(Some("0"), fallback) == fallback
  {
    ParseIntOfDecimal(0, []);
    assert IntToDecimal(0) + [] == "0";
  }

  /** A positive decimal limit in the environment is taken as is; 0 and no value give the default. */
  lemma LimiterSettings(env: Env, n: nat)
    ensures env.rateLimitWindowMs == Some(NatToDecimal(n)) && n > 0 ==> WindowMs(env) == n
    ensures env.rateLimitMaxRequests == Some(NatToDecimal(n)) && n > 0 ==> MaxRequests(env) == n
    ensures env.rateLimitWindowMs == Some("0") || env.rateLimitWindowMs.None? ==> WindowMs(env) == 60000
    ensures env.rateLimitMaxRequests == Some("0") || env.rateLimitMaxRequests.None? ==> MaxRequests(env) == 20
  {
    if n > 0 {
      ParseOrDefaultDecimal(n, DefaultWindowMs);
      ParseOrDefaultDecimal(n, DefaultMaxRequests);
    }
    ParseOrDefaultZero(DefaultWindowMs);
    ParseOrDefaultZero(DefaultMaxRequests);
  }

  // The CORS origin check.

  const DefaultFrontendUrl: string := "http://localhost:5174"
  const CorsError: string := "Not allowed by CORS"

  /** `allowedOrigins` */
  function AllowedOrigins(env: Env): seq<string> {
    [Or(env.frontendUrl, DefaultFrontendUrl), "http://localhost:3000", "http://localhost:5173", "http://localhost:5174"]
  }

  /** `xs.indexOf(x)`: the first position holding `x`, or -1. */
  function IndexOf(xs: seq<string>, x: string): (r: int)
    ensures -1 <= r < |xs|
    ensures r == -1 <==> x !in xs
    ensures r >= 0 ==> xs[r] == x && forall j :: 0 <= j < r ==> xs[j] != x
  {
    if xs == [] then -1
    else if xs[0] == x then 0
    else
      var k := IndexOf(xs[1..], x);
      if k == -1 then -1 else k + 1
  }

  /** What the origin callback passes on: allowed, or an error. */
  datatype CorsDecision = Allow | Reject(error: string)

  /** `corsOptions.origin`; a missing or empty `Origin` header is allowed. */
  function CorsOrigin(env: Env, origin: Option<string>): CorsDecision {
    if origin.None? || origin.value == [] then Allow
    else if IndexOf(AllowedOrigins(env), origin.value) != -1 then Allow
    else Reject(CorsError)
  }

  /**
   * An origin is let through exactly when there is none, or when it equals
   * FRONTEND_URL (its default when unset or empty) or one of the three
   * local development addresses; anything else is refused with the fixed
   * error.
   */
  lemma CorsAllowsExactly(env: Env, origin: Option<string>)
    ensures CorsOrigin(env, origin).Allow? <==>
      || origin.None? || origin.value == []
      || origin.value == Or(env.frontendUrl, DefaultFrontendUrl)
      || origin.value == "http://localhost:3000"
      || origin.value == "http://localhost:5173"
      || origin.value == "http://localhost:5174"
    ensures CorsOrigin(env, origin).Reject? ==> CorsOrigin(env, origin).error == CorsError
  {
  }

  /** Without FRONTEND_URL, exactly the three local addresses are allowed. */
  lemma CorsDefaultOrigins(env: Env, o: string)
    requires env.frontendUrl.None?
    requires o != []
    ensures CorsOrigin(env, Some(o)).Allow? <==> o in {"http://localhost:3000", "http://localhost:5173", "http://localhost:5174"}
  {
    CorsAllowsExactly(env, Some(o));
  }
}
