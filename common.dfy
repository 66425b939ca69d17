/** Vocabulary shared by every service: outcomes, JavaScript values, the
    password hasher and the small text functions the services use. */
module Common {

  datatype Option<+T> = None | Some(value: T)

  /** What a service call ends in: a value, or the HTTP exception it throws.
      `Error` stands for a plain `Error` or a failure raised by the store
      (a missing row, a violated unique index), which the framework turns
      into a 500. */
  datatype Outcome<+T> =
    | Ok(value: T)
    | Conflict(message: string)
    | Unauthorized(message: string)
    | NotFound(message: string)
    | BadRequest(message: string)
    | Forbidden(message: string)
    | Error(message: string)

  /** A JavaScript value as the request handlers see it. Numbers are
      integers: NaN, fractions and -0 are not modelled. */
  datatype JsValue =
    | Undefined
    | Null
    | Bool(b: bool)
    | Num(n: int)
    | Str(s: string)
    | Arr(items: seq<JsValue>)
    | Obj(fields: map<string, JsValue>)
  {
    /** JavaScript truthiness. */
    predicate Truthy() {
      match this
      case Undefined => false
      case Null => false
      case Bool(b) => b
      case Num(n) => n != 0
      case Str(s) => s != ""
      case Arr(_) => true
      case Obj(_) => true
    }

    /** Property access `v.key`: `undefined` when the key is absent or `v`
        is not a plain object. */
    function Get(key: string): JsValue {
      if Obj? && key in fields then fields[key] else Undefined
    }
  }

  /** Property `key` of a decoded token payload. */
  function Claim(payload: map<string, JsValue>, key: string): JsValue {
    if key in payload then payload[key] else Undefined
  }

  /** A bcrypt digest. The salt is not modelled: the digest remembers the
      plaintext it was made from and only `Compare` looks inside. */
  datatype Digest = Bcrypt(plain: string)

  function Hash(password: string): Digest {
    Bcrypt(password)
  }

  predicate Compare(candidate: string, digest: Digest) {
    digest.plain == candidate
  }

  /** `compare(p, hash(p))` holds and `compare(q, hash(p))` fails for q != p. */
  lemma HashRoundTrip(p: string, q: string)
    ensures Compare(p, Hash(p))
    ensures q != p ==> !Compare(q, Hash(p))
  {
  }

  /** `a || b` on an optional string: the default when absent or empty. */
  function OrDefault(s: Option<string>, default: string): string {
    if s.Some? && s.value != "" then s.value else default
  }

  /** JavaScript's `!s` on an optional string. */
  predicate Blank(s: Option<string>) {
    s.None? || s.value == ""
  }

  // ---- time, in milliseconds -------------------------------------------

  const SecondMs: int := 1000
  const MinuteMs: int := 60 * SecondMs
  const HourMs: int := 60 * MinuteMs
  const DayMs: int := 24 * HourMs

  // ---- characters and strings --------------------------------------------

  predicate IsDigit(c: char) { '0' <= c <= '9' }
  predicate IsLowerLetter(c: char) { 'a' <= c <= 'z' }
  predicate IsUpperLetter(c: char) { 'A' <= c <= 'Z' }
  predicate IsLetter(c: char) { IsLowerLetter(c) || IsUpperLetter(c) }

  /** The characters `\s` matches, restricted to ASCII. */
  predicate IsSpace(c: char) {
    c == ' ' || c == '\t' || c == '\n' || c == '\r' || c == '\U{000B}' || c == '\U{000C}'
  }

  predicate AllDigits(s: string) {
    forall i :: 0 <= i < |s| ==> IsDigit(s[i])
  }

  function LowerChar(c: char): (d: char)
    ensures IsUpperLetter(c) ==> IsLowerLetter(d) && d as int == c as int + 32
    ensures !IsUpperLetter(c) ==> d == c
  {
    if IsUpperLetter(c) then (c as int + 32) as char else c
  }

  /** ASCII `toLowerCase`. */
  function Lower(s: string): (t: string)
    ensures |t| == |s|
    ensures forall i :: 0 <= i < |s| ==> t[i] == LowerChar(s[i])
  {
    seq(|s|, i requires 0 <= i < |s| => LowerChar(s[i]))
  }

  /** `needle` occurs in `hay` at position `at`. */
  predicate OccursAt(hay: string, needle: string, at: int) {
    0 <= at && at + |needle| <= |hay| && hay[at..at + |needle|] == needle
  }

  /** `hay.includes(needle)`. */
  predicate Contains(hay: string, needle: string) {
    exists at :: 0 <= at <= |hay| && OccursAt(hay, needle, at)
  }

  /** A case-insensitive `contains` filter on a text column. */
  predicate ContainsInsensitive(hay: string, needle: string) {
    Contains(Lower(hay), Lower(needle))
  }

  function DigitChar(d: int): (c: char)
    requires 0 <= d < 10
    ensures IsDigit(c)
  {
    (48 + d) as char
  }

  function DigitValue(c: char): (d: int)
    requires IsDigit(c)
    ensures 0 <= d < 10
  {
    c as int - 48
  }

  /** `n.toString()` for a natural number. */
  function DecimalString(n: nat): (s: string)
    ensures |s| >= 1
  {
    if n < 10 then [DigitChar(n)] else DecimalString(n / 10) + [DigitChar(n % 10)]
  }

  /** The value of a string of decimal digits. */
  function ParseDecimal(s: string): nat
    requires AllDigits(s)
  {
    if s == [] then 0 else 10 * ParseDecimal(s[..|s| - 1]) + DigitValue(s[|s| - 1])
  }

  /** `Number(s)` for the strings it turns into a whole number: a non-empty
      run of decimal digits. Everything else is NaN (None). */
  function ToNumber(s: string): (r: Option<int>)
    ensures r.Some? ==> r.value >= 0
  {
    if s != [] && AllDigits(s) then Some(ParseDecimal(s)) else None
  }

  /** `toString` produces digits only, and reading them back gives `n`. */
  lemma {:induction false} DecimalRoundTrip(n: nat)
    ensures AllDigits(DecimalString(n))
    ensures ParseDecimal(DecimalString(n)) == n
  {
    if n >= 10 {
      DecimalRoundTrip(n / 10);
      var s := DecimalString(n);
      assert s[..|s| - 1] == DecimalString(n / 10);
    }
  }

  /** Every integer in [1000, 9999] prints as exactly four digits, the first
      of them not zero. */
  lemma FourDigitString(n: nat)
    requires 1000 <= n <= 9999
    ensures |DecimalString(n)| == 4
    ensures AllDigits(DecimalString(n))
    ensures DecimalString(n)[0] != '0'
  {
    DecimalRoundTrip(n);
    assert DecimalString(n) == DecimalString(n / 1000) + [DigitChar(n / 100 % 10)]
      + [DigitChar(n / 10 % 10)] + [DigitChar(n % 10)];
  }
}
