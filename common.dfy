/**
 * Shared vocabulary of the payment-server model: optional values, results,
 * the exceptions the services raise, JavaScript truthiness, and the few
 * string operations (prefix tests, substring search, digit runs, case
 * mapping, whitespace trimming, number formatting) the core relies on.
 */
module Common {

  datatype Option<+T> = None | Some(value: T)

  datatype Result<+T, +E> = Ok(value: T) | Err(error: E)

  /** Exceptions raised by the services: NestJS HTTP exceptions and JavaScript runtime errors. */
  datatype Exception =
    | Forbidden(message: string)
    | Unauthorized(message: string)
    | NotFound(message: string)
    | HttpError(status: int)
    | RangeError          // crypto.timingSafeEqual on buffers of different length
    | TypeError           // a property read on undefined or null
    | RedisError          // a Redis command the server rejects
    | Failure(message: string)

  /** JavaScript truthiness of an optional string: present and not empty. */
  predicate Truthy(s: Option<string>)
  {
    s.Some? && s.value != ""
  }

  /** JavaScript truthiness of an optional number: present and not zero. */
  predicate TruthyNum(n: Option<int>)
  {
    n.Some? && n.value != 0
  }

  /** JavaScript `a || b` on optional strings. */
  function Or(a: Option<string>, b: Option<string>): (r: Option<string>)
    ensures Truthy(r) <==> Truthy(a) || Truthy(b)
    ensures Truthy(a) ==> r == a
  {
    if Truthy(a) then a else b
  }

  predicate StartsWith(s: string, prefix: string)
  {
    |prefix| <= |s| && s[..|prefix|] == prefix
  }

  predicate OccursAt(s: string, p: string, i: nat)
  {
    i + |p| <= |s| && s[i..i + |p|] == p
  }

  /** The first position at or after `from` where `p` occurs in `s` (String.prototype.indexOf). */
  function IndexOf(s: string, p: string, from: nat): (r: Option<nat>)
    decreases |s| - from
    ensures r.Some? ==> from <= r.value && OccursAt(s, p, r.value)
    ensures r.Some? ==> forall j :: from <= j < r.value ==> !OccursAt(s, p, j)
    ensures r.None? ==> forall j :: from <= j ==> !OccursAt(s, p, j)
  {
    if |s| < from + |p| then None
    else if OccursAt(s, p, from) then Some(from)
    else IndexOf(s, p, from + 1)
  }

  /** String.prototype.includes */
  predicate Contains(s: string, p: string)
  {
    IndexOf(s, p, 0).Some?
  }

  lemma ContainsIff(s: string, p: string)
    ensures Contains(s, p) <==> exists i :: OccursAt(s, p, i)
  {
    if !Contains(s, p) {
      assert forall j :: 0 <= j ==> !OccursAt(s, p, j);
    }
  }

  predicate IsDigit(c: char)
  {
    '0' <= c <= '9'
  }

  predicate AllDigits(s: string)
  {
    forall i :: 0 <= i < |s| ==> IsDigit(s[i])
  }

  /** The JavaScript white-space and line-terminator characters (what `trim` and `\s` match). */
  predicate IsSpace(c: char)
  {
    c == ' ' || c == '\t' || c == '\n' || c == '\r' || c == '\U{000B}' || c == '\U{000C}'
    || c == '\U{00A0}' || c == '\U{1680}' || ('\U{2000}' <= c <= '\U{200A}')
    || c == '\U{2028}' || c == '\U{2029}' || c == '\U{202F}' || c == '\U{205F}'
    || c == '\U{3000}' || c == '\U{FEFF}'
  }

  function DigitValue(c: char): nat
    requires IsDigit(c)
  {
    c as int - '0' as int
  }

  function DigitChar(d: nat): (c: char)
    requires d < 10
    ensures IsDigit(c) && DigitValue(c) == d
  {
    ('0' as int + d) as char
  }

  /** The decimal value of a digit string (`Number` of a `\d+` capture). */
  function DigitsValue(s: string): nat
    requires AllDigits(s)
  {
    if |s| == 0 then 0 else DigitsValue(s[..|s| - 1]) * 10 + DigitValue(s[|s| - 1])
  }

  /** Decimal rendering of a natural number, as a template literal prints it. */
  function NatToString(n: nat): (s: string)
    ensures 1 <= |s| && AllDigits(s)
    ensures DigitsValue(s) == n
  {
    if n < 10 then [DigitChar(n)]
    else
      var prefix := NatToString(n / 10);
      var s := prefix + [DigitChar(n % 10)];
      assert s[..|s| - 1] == prefix;
      s
  }

  function IntToString(i: int): (s: string)
    ensures 1 <= |s|
    ensures i >= 0 ==> AllDigits(s)
  {
    if i < 0 then "-" + NatToString(-i) else NatToString(i)
  }

  /** The end of the run of digits starting at `i`. */
  function DigitRunEnd(s: string, i: nat): (j: nat)
    requires i <= |s|
    decreases |s| - i
    ensures i <= j <= |s|
    ensures forall k :: i <= k < j ==> IsDigit(s[k])
    ensures j == |s| || !IsDigit(s[j])
  {
    if i == |s| || !IsDigit(s[i]) then i else DigitRunEnd(s, i + 1)
  }

  /** The end of the run of white space starting at `i`. */
  function SpaceRunEnd(s: string, i: nat): (j: nat)
    requires i <= |s|
    decreases |s| - i
    ensures i <= j <= |s|
    ensures forall k :: i <= k < j ==> IsSpace(s[k])
    ensures j == |s| || !IsSpace(s[j])
  {
    if i == |s| || !IsSpace(s[i]) then i else SpaceRunEnd(s, i + 1)
  }

  /** String.prototype.trim */
  function Trim(s: string): (r: string)
    ensures |r| <= |s|
    ensures |r| > 0 ==> !IsSpace(r[0]) && !IsSpace(r[|r| - 1])
  {
    TrimEnd(TrimStart(s))
  }

  function TrimStart(s: string): (r: string)
    ensures |r| <= |s|
    ensures |r| > 0 ==> !IsSpace(r[0])
    ensures r == s[|s| - |r|..]
  {
    if |s| > 0 && IsSpace(s[0]) then TrimStart(s[1..]) else s
  }

  function TrimEnd(s: string): (r: string)
    ensures |r| <= |s|
    ensures |r| > 0 ==> !IsSpace(r[|r| - 1])
    ensures r == s[..|r|]
  {
    if |s| > 0 && IsSpace(s[|s| - 1]) then TrimEnd(s[..|s| - 1]) else s
  }

  function LowerChar(c: char): char
  {
    if 'A' <= c <= 'Z' then (c as int + 32) as char else c
  }

  function UpperChar(c: char): char
  {
    if 'a' <= c <= 'z' then (c as int - 32) as char else c
  }

  /** String.prototype.toLowerCase, on the ASCII letters. */
  function ToLower(s: string): (r: string)
    ensures |r| == |s| && forall i :: 0 <= i < |s| ==> r[i] == LowerChar(s[i])
  {
    seq(|s|, i requires 0 <= i < |s| => LowerChar(s[i]))
  }

  /** String.prototype.toUpperCase, on the ASCII letters. */
  function ToUpper(s: string): (r: string)
    ensures |r| == |s| && forall i :: 0 <= i < |s| ==> r[i] == UpperChar(s[i])
  {
    seq(|s|, i requires 0 <= i < |s| => UpperChar(s[i]))
  }

  /** The number of bytes a character takes in UTF-8 (what `Buffer.from(string)` produces). */
  function Utf8Width(c: char): nat
  {
    if c as int < 0x80 then 1 else if c as int < 0x800 then 2 else if c as int < 0x10000 then 3 else 4
  }

  /** The byte length of `Buffer.from(s)`. */
  function Utf8Length(s: string): nat
  {
    if |s| == 0 then 0 else Utf8Length(s[..|s| - 1]) + Utf8Width(s[|s| - 1])
  }

  /** The index of the first element satisfying `p` (the first row a `findOne` returns). */
  function FirstWhere<T>(s: seq<T>, p: T -> bool): (r: Option<nat>)
    ensures r.Some? ==> r.value < |s| && p(s[r.value])
    ensures r.Some? ==> forall j :: 0 <= j < r.value ==> !p(s[j])
    ensures r.None? ==> forall j :: 0 <= j < |s| ==> !p(s[j])
  {
    if |s| == 0 then None
    else if p(s[0]) then Some(0)
    else
      match FirstWhere(s[1..], p)
      case None => None
      case Some(j) => Some(j + 1)
  }

  /** The elements satisfying `p`, most recently inserted first (an `ORDER BY createdAt DESC` query). */
  function NewestFirstWhere<T(!new)>(s: seq<T>, p: T -> bool): (r: seq<T>)
    ensures forall x :: x in r <==> x in s && p(x)
    ensures |r| <= |s|
  {
    if |s| == 0 then []
    else
      var rest := NewestFirstWhere(s[..|s| - 1], p);
      assert forall x :: x in s <==> x in s[..|s| - 1] || x == s[|s| - 1];
      if p(s[|s| - 1]) then [s[|s| - 1]] + rest else rest
  }
}
