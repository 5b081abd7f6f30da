/** Values shared by every handler: optional and partial values, the tagged
    result of an HTTP handler, and the few string operations the backend and the
    web client rely on (decimal formatting, Python truthiness, JavaScript trim,
    lower-casing). */
module Common {

  /** A value that may be absent: Python's `None`, JavaScript's `null`/`undefined`. */
  datatype Option<+T> = None | Some(value: T) {
    function GetOr(default: T): T {
      match this
      case Some(v) => v
      case None => default
    }
  }

  /** One key of a partial update (`model_dump(exclude_unset=True)`, a spread of
      `Partial<T>`): either the key is absent, or it is present with a value. */
  datatype Patch<+T> = Keep | Set(value: T) {
    function Apply(current: T): T {
      match this
      case Keep => current
      case Set(v) => v
    }
  }

  /** The outcome of a request handler: a value, or the HTTP status and detail
      of the `HTTPException` it raises. */
  datatype Result<+T> = Ok(value: T) | Err(code: int, detail: string)

  const BadRequest := 400
  const Unauthorized := 401
  const NotFound := 404
  const UnprocessableEntity := 422
  /** What the server answers when the database rejects a write the handler did not check. */
  const InternalServerError := 500

  /** Python truthiness of an optional string: `None` and `""` are false. */
  predicate Truthy(s: Option<string>) {
    s.Some? && s.value != ""
  }

  /** Python's `a or b` on optional strings. */
  function Or(a: Option<string>, b: Option<string>): (r: Option<string>)
    ensures Truthy(a) ==> r == a
    ensures !Truthy(a) ==> r == b
  {
    if Truthy(a) then a else b
  }

  // ---------------------------------------------------------------------------
  // Decimal formatting (Python f-strings and JavaScript template literals of
  // integers) and its inverse.

  predicate IsDigit(c: char) {
    '0' <= c <= '9'
  }

  predicate AllDigits(s: string) {
    forall i :: 0 <= i < |s| ==> IsDigit(s[i])
  }

  function DigitChar(d: nat): (c: char)
    requires d < 10
    ensures IsDigit(c) && (c as int) - ('0' as int) == d
  {
    (('0' as int) + d) as char
  }

  /** The decimal digits of `n`, most significant first, without leading zeros. */
  function NatToString(n: nat): (s: string)
    ensures |s| >= 1 && AllDigits(s)
    ensures s[0] == '0' ==> n == 0
  {
    if n < 10 then [DigitChar(n)] else NatToString(n / 10) + [DigitChar(n % 10)]
  }

  /** The value of a string of decimal digits. */
  function DigitsValue(s: string): nat
    requires AllDigits(s)
  {
    if s == [] then 0
    else DigitsValue(s[..|s| - 1]) * 10 + ((s[|s| - 1] as int) - ('0' as int))
  }

  /** Reading back what `NatToString` wrote gives the number again. */
  lemma {:induction false} NatToStringRoundTrip(n: nat)
    ensures DigitsValue(NatToString(n)) == n
  {
    if n >= 10 {
      var s := NatToString(n);
      assert s[..|s| - 1] == NatToString(n / 10);
      NatToStringRoundTrip(n / 10);
    }
  }

  /** `NatToString` is injective: distinct numbers print differently. */
  lemma NatToStringInjective(m: nat, n: nat)
    requires NatToString(m) == NatToString(n)
    ensures m == n
  {
    NatToStringRoundTrip(m);
    NatToStringRoundTrip(n);
  }

  /** `str(i)` of a Python int, `${i}` of a JavaScript integer. */
  function IntToString(i: int): (s: string)
    ensures |s| >= 1
    ensures i < 0 <==> s[0] == '-'
  {
    if i < 0 then "-" + NatToString(-i) else NatToString(i)
  }

  /** The inverse of `IntToString` on its image. */
  function ParseInt(s: string): int
    requires |s| >= 1
    requires (s[0] == '-' && AllDigits(s[1..])) || AllDigits(s)
  {
    if s[0] == '-' then 0 - DigitsValue(s[1..]) as int else DigitsValue(s)
  }

  lemma IntToStringRoundTrip(i: int)
    ensures var s := IntToString(i);
      ((s[0] == '-' && AllDigits(s[1..])) || AllDigits(s)) && ParseInt(s) == i
  {
    if i < 0 {
      assert IntToString(i)[1..] == NatToString(-i);
      NatToStringRoundTrip(-i);
    } else {
      NatToStringRoundTrip(i);
    }
  }

  /** Python's `sep.join(parts)`. */
  function Join(parts: seq<string>, sep: string): string {
    if parts == [] then ""
    else if |parts| == 1 then parts[0]
    else Join(parts[..|parts| - 1], sep) + sep + parts[|parts| - 1]
  }

  // ---------------------------------------------------------------------------
  // JavaScript `String.prototype.trim`.

  /** The code points ECMAScript counts as WhiteSpace or LineTerminator. */
  predicate IsJsWhitespace(c: char) {
    c == '\t' || c == '\n' || c == '\U{000B}' || c == '\U{000C}' || c == '\r' || c == ' '
    || c == '\U{00A0}' || c == '\U{1680}' || ('\U{2000}' <= c <= '\U{200A}')
    || c == '\U{2028}' || c == '\U{2029}' || c == '\U{202F}' || c == '\U{205F}'
    || c == '\U{3000}' || c == '\U{FEFF}'
  }

  predicate AllWhitespace(s: string) {
    forall i :: 0 <= i < |s| ==> IsJsWhitespace(s[i])
  }

  /** `s` without its leading whitespace. */
  function TrimStart(s: string): string {
    if s != [] && IsJsWhitespace(s[0]) then TrimStart(s[1..]) else s
  }

  /** `s` without its trailing whitespace. */
  function TrimEnd(s: string): string {
    if s != [] && IsJsWhitespace(s[|s| - 1]) then TrimEnd(s[..|s| - 1]) else s
  }

  /** `s.trim()`: the longest slice of `s` that neither starts nor ends with whitespace. */
  function Trim(s: string): string {
    TrimEnd(TrimStart(s))
  }

  /** `TrimStart` cuts a whitespace prefix and stops at a non-blank character. */
  lemma {:induction false} TrimStartShape(s: string)
    ensures var r := TrimStart(s);
      && |r| <= |s| && r == s[|s| - |r|..]
      && AllWhitespace(s[..|s| - |r|])
      && (r != [] ==> !IsJsWhitespace(r[0]))
  {
    if s != [] && IsJsWhitespace(s[0]) {
      TrimStartShape(s[1..]);
      var r := TrimStart(s);
      var k := |s| - |r|;
      assert s[1..][|s| - 1 - |r|..] == s[k..];
      forall i | 0 <= i < k ensures IsJsWhitespace(s[..k][i]) {
        if i == 0 {
          assert s[..k][i] == s[0];
        } else {
          assert s[..k][i] == s[1..][..k - 1][i - 1];
        }
      }
    }
  }

  /** `TrimEnd` cuts a whitespace suffix and stops at a non-blank character. */
  lemma {:induction false} TrimEndShape(s: string)
    ensures var r := TrimEnd(s);
      && |r| <= |s| && r == s[..|r|]
      && AllWhitespace(s[|r|..])
      && (r != [] ==> !IsJsWhitespace(r[|r| - 1]))
  {
    if s != [] && IsJsWhitespace(s[|s| - 1]) {
      var n := |s| - 1;
      TrimEndShape(s[..n]);
      var r := TrimEnd(s);
      assert s[..n][..|r|] == s[..|r|];
      forall i | 0 <= i < |s| - |r| ensures IsJsWhitespace(s[|r|..][i]) {
        if i < n - |r| {
          assert s[|r|..][i] == s[..n][|r|..][i];
        }
      }
    }
  }

  /** `Trim(s)` is the slice `s[i..j]`, and what it cuts off is whitespace. */
  lemma TrimSlice(s: string) returns (i: nat, j: nat)
    ensures i <= j <= |s| && Trim(s) == s[i..j]
    ensures AllWhitespace(s[..i]) && AllWhitespace(s[j..])
  {
    var t := TrimStart(s);
    TrimStartShape(s);
    TrimEndShape(t);
    i := |s| - |t|;
    j := i + |TrimEnd(t)|;
    assert t == s[i..];
    assert TrimEnd(t) == t[..j - i] == s[i..j];
    assert t[j - i..] == s[j..];
  }

  /** A string trims to `""` exactly when it is all whitespace; otherwise the
      trimmed string starts and ends with a non-blank character. */
  lemma TrimEmptyIff(s: string)
    ensures Trim(s) == "" <==> AllWhitespace(s)
    ensures Trim(s) != "" ==> !IsJsWhitespace(Trim(s)[0]) && !IsJsWhitespace(Trim(s)[|Trim(s)| - 1])
  {
    var i, j := TrimSlice(s);
    var r := Trim(s);
    if r == "" {
      assert i == j;
      forall k | 0 <= k < |s| ensures IsJsWhitespace(s[k]) {
        if k < i {
          assert s[k] == s[..i][k];
        } else {
          assert s[k] == s[j..][k - j];
        }
      }
    } else {
      var t := TrimStart(s);
      TrimStartShape(s);
      TrimEndShape(t);
      assert r[0] == t[0];
    }
  }

  // ---------------------------------------------------------------------------
  // Lower-casing.

  /** Lower-case of an ASCII letter; every other code point is kept. */
  function ToLowerAscii(c: char): char {
    if 'A' <= c <= 'Z' then ((c as int) + 32) as char else c
  }

  function LowerAscii(s: string): (r: string)
    ensures |r| == |s|
    ensures forall i :: 0 <= i < |s| ==> r[i] == ToLowerAscii(s[i])
  {
    if s == [] then [] else [ToLowerAscii(s[0])] + LowerAscii(s[1..])
  }
}
