/**
 * The worker's configuration: the cache lifetime in minutes, read from the
 * environment with `parseInt(env.CACHE_EXPIRATION_MINUTES || "10")`.
 *
 * `parseInt` is modelled for what it does on decimal text: an optional sign,
 * then the longest run of decimal digits; text with no leading digits gives
 * NaN, which is `None` here.
 */
module Config {
  import opened Wrappers

  /** The setting used when the variable is unset or empty. */
  const ExpirationDefault: string := "10"

  predicate IsDigit(c: char) {
    '0' <= c <= '9'
  }

  predicate AllDigits(s: string) {
    forall i :: 0 <= i < |s| ==> IsDigit(s[i])
  }

  function DigitValue(c: char): (v: nat)
    requires IsDigit(c)
    ensures v < 10
  {
    c as int - '0' as int
  }

  function DigitChar(v: nat): (c: char)
    requires v < 10
    ensures IsDigit(c) && DigitValue(c) == v
  {
    ('0' as int + v) as char
  }

  /** The longest prefix of `s` made of decimal digits. */
  function DigitPrefix(s: string): (d: string)
    ensures d <= s
    ensures AllDigits(d)
    ensures |d| < |s| ==> !IsDigit(s[|d|])
  {
    if s == [] || !IsDigit(s[0]) then [] else [s[0]] + DigitPrefix(s[1..])
  }

  /** The value of a string of decimal digits, most significant first. */
  function DigitsValue(d: string): nat
    requires AllDigits(d)
  {
    if d == [] then 0 else DigitsValue(d[..|d| - 1]) * 10 + DigitValue(d[|d| - 1])
  }

  /**
   * JavaScript's `parseInt(s)` on decimal text; `None` stands for NaN. A
   * number is read exactly when the text starts with a digit, or with a sign
   * followed by a digit; its sign is the text's.
   */
  function ParseInt(s: string): (r: Option<int>)
    ensures r.Some? <==> (|s| > 0 && IsDigit(s[0])) || (|s| > 1 && (s[0] == '-' || s[0] == '+') && IsDigit(s[1]))
    ensures r.Some? && s[0] == '-' ==> r.value <= 0
    ensures r.Some? && s[0] != '-' ==> r.value >= 0
  {
    var signed := |s| > 0 && (s[0] == '-' || s[0] == '+');
    var digits := DigitPrefix(if signed then s[1..] else s);
    if digits == [] then None
    else if signed && s[0] == '-' then Some(-(DigitsValue(digits) as int))
    else Some(DigitsValue(digits))
  }

  /** The decimal text of a natural number, without leading zeros. */
  function ShowNat(n: nat): (s: string)
    ensures |s| > 0 && AllDigits(s)
    ensures s[0] == '0' ==> n == 0
  {
    if n < 10 then [DigitChar(n)] else ShowNat(n / 10) + [DigitChar(n % 10)]
  }

  /**
   * The cache lifetime in minutes: `setting` is the environment variable,
   * `None` when unset. An empty setting is falsy in JavaScript and also falls
   * back to the default. The result is `None` when `parseInt` gives NaN.
   */
  function ExpirationMinutes(setting: Option<string>): (r: Option<int>)
    ensures setting == None || setting == Some("") ==> r == Some(10)
    ensures setting.Some? && setting.value != "" ==> r == ParseInt(setting.value)
  {
    assert ExpirationDefault == ShowNat(10) + [];
    ParseIntReadsLeadingNumber(10, []);
    var text := match setting
      case None => ExpirationDefault
      case Some(s) => if s == "" then ExpirationDefault else s;
    ParseInt(text)
  }

  lemma {:induction false} DigitsValueOfShowNat(n: nat)
    ensures DigitsValue(ShowNat(n)) == n
  {
    if n >= 10 {
      var s := ShowNat(n);
      assert s[..|s| - 1] == ShowNat(n / 10);
      DigitsValueOfShowNat(n / 10);
    }
  }

  lemma {:induction false} DigitPrefixStopsAtNonDigit(d: string, rest: string)
    requires AllDigits(d)
    requires rest == [] || !IsDigit(rest[0])
    ensures DigitPrefix(d + rest) == d
  {
    if d != [] {
      assert (d + rest)[1..] == d[1..] + rest;
      DigitPrefixStopsAtNonDigit(d[1..], rest);
    } else {
      assert d + rest == rest;
    }
  }

  /**
   * `parseInt` reads back the decimal text of a number, and ignores whatever
   * follows it once a non-digit is reached (so "15min" gives 15). A "0"
   * followed by `x` or `X` is excluded: JavaScript reads it as hexadecimal.
   */
  lemma ParseIntReadsLeadingNumber(n: nat, rest: string)
    requires rest == [] || !IsDigit(rest[0])
    requires !(n == 0 && rest != [] && (rest[0] == 'x' || rest[0] == 'X'))
    ensures ParseInt(ShowNat(n) + rest) == Some(n)
    ensures ParseInt("-" + ShowNat(n) + rest) == Some(-(n as int))
  {
    var s := ShowNat(n);
    DigitPrefixStopsAtNonDigit(s, rest);
    DigitsValueOfShowNat(n);
    var text := s + rest;
    assert text[0] == s[0] && IsDigit(text[0]);
    assert ParseInt(text) == Some(DigitsValue(s));
    var negative := "-" + s + rest;
    assert negative[0] == '-' && negative[1..] == text;
    assert ParseInt(negative) == Some(-(DigitsValue(s) as int));
  }

  /**
   * Text that starts with a visible ASCII character other than a digit or a
   * sign is NaN (JavaScript would first skip leading whitespace, which is
   * why whitespace is excluded here).
   */
  lemma ParseIntWithoutDigits(s: string)
    requires s == [] || ('!' <= s[0] <= '~' && !IsDigit(s[0]) && s[0] != '-' && s[0] != '+')
    ensures ParseInt(s) == None
  {
  }

  /** A setting written as a natural number in decimal is read as that many minutes. */
  lemma ExpirationMinutesFromSetting(n: nat)
    ensures ExpirationMinutes(Some(ShowNat(n))) == Some(n)
  {
    ParseIntReadsLeadingNumber(n, []);
    assert ShowNat(n) + [] == ShowNat(n);
  }
}
