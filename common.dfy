/** Values and string helpers shared by every page and store of the client:
    optional values (JavaScript's `null`/`undefined`), the `a || b` fallback on
    strings, `String.prototype.trim`, UTF-16 `length`, `slice(-k)` and the
    decimal rendering of integers. */
module Common {

  /** A value that may be `null` or `undefined`. */
  datatype Option<+T> = None | Some(value: T)

  /** How an axios call ended: a response with its status code and body, or
      a rejection carrying the `message` of the error response's body, if any. */
  datatype AxiosReply<T> = Response(status: int, data: T) | Rejected(message: Option<string>)

  /** A profile record as a server returned it (`res.data.user`, say): its
      `_id`, when it has one, and its other fields. */
  datatype Profile = Profile(id: Option<string>, fields: map<string, string>)

  /** `profile?._id` where a present but empty id counts as absent, as the
      guards `if (!user?._id)` read it. */
  function IdOf(profile: Option<Profile>): (r: Option<string>)
    ensures r.Some? <==> profile.Some? && Truthy(profile.value.id)
    ensures r.Some? ==> r.value != "" && r == profile.value.id
  {
    if profile.Some? && Truthy(profile.value.id) then profile.value.id else None
  }

  /** JavaScript truthiness of an optional string: present and not "". */
  predicate Truthy(s: Option<string>) {
    s.Some? && s.value != ""
  }

  /** `s || fallback` where `s` is an optional string (a server message, say). */
  function OrElse(s: Option<string>, fallback: string): (r: string)
    ensures Truthy(s) ==> r == s.value
    ensures !Truthy(s) ==> r == fallback
    ensures r != "" <== fallback != ""
  {
    if Truthy(s) then s.value else fallback
  }

  /** The characters `String.prototype.trim` removes: WhiteSpace and
      LineTerminator of ECMAScript (section 12.2 and 12.3 of ECMA-262). */
  predicate IsSpace(c: char) {
    || c == '\t' || c == '\n' || c == '\r' || c == ' '
    || c == '\U{000B}' || c == '\U{000C}' || c == '\U{00A0}' || c == '\U{1680}'
    || ('\U{2000}' <= c <= '\U{200A}')
    || c == '\U{2028}' || c == '\U{2029}' || c == '\U{202F}' || c == '\U{205F}'
    || c == '\U{3000}' || c == '\U{FEFF}'
  }

  /** Every character of `s` is white space (the empty string included). */
  predicate Blank(s: string) {
    forall i :: 0 <= i < |s| ==> IsSpace(s[i])
  }

  /** How many white-space characters `s` starts with. */
  function LeadingSpaces(s: string): (n: nat)
    ensures n <= |s|
    ensures forall i :: 0 <= i < n ==> IsSpace(s[i])
    ensures n == |s| || !IsSpace(s[n])
  {
    if s != [] && IsSpace(s[0]) then 1 + LeadingSpaces(s[1..]) else 0
  }

  /** How many white-space characters `s` ends with. */
  function TrailingSpaces(s: string): (n: nat)
    ensures n <= |s|
    ensures forall i :: |s| - n <= i < |s| ==> IsSpace(s[i])
    ensures n == |s| || !IsSpace(s[|s| - n - 1])
  {
    if s != [] && IsSpace(s[|s| - 1]) then 1 + TrailingSpaces(s[..|s| - 1]) else 0
  }

  /** `s` with its leading white space removed. */
  function TrimStart(s: string): (r: string)
    ensures |r| <= |s| && r == s[|s| - |r|..]
    ensures forall i :: 0 <= i < |s| - |r| ==> IsSpace(s[i])
    ensures r == [] || !IsSpace(r[0])
  {
    s[LeadingSpaces(s)..]
  }

  /** `s` with its trailing white space removed. */
  function TrimEnd(s: string): (r: string)
    ensures |r| <= |s| && r == s[..|r|]
    ensures forall i :: |r| <= i < |s| ==> IsSpace(s[i])
    ensures r == [] || !IsSpace(r[|r| - 1])
  {
    s[..|s| - TrailingSpaces(s)]
  }

  /** `s.trim()`: a contiguous piece of `s` that neither starts nor ends with
      white space, everything cut off being white space; it is empty exactly
      when `s` is blank, so `!s.trim()` is `Blank(s)`. */
  function Trim(s: string): (r: string)
    ensures var k := |s| - |TrimStart(s)|; k + |r| <= |s| && r == s[k..k + |r|]
    ensures r == [] || (!IsSpace(r[0]) && !IsSpace(r[|r| - 1]))
    ensures r == [] <==> Blank(s)
  {
    TrimmedIsWhole(s);
    TrimEnd(TrimStart(s))
  }

  lemma TrimmedIsWhole(s: string)
    ensures var t := TrimStart(s); var r := TrimEnd(t);
      r == s[|s| - |t|..|s| - |t| + |r|] && (r == [] ==> Blank(s))
  {
    var t := TrimStart(s);
    var r := TrimEnd(t);
    var k := |s| - |t|;
    assert r == t[..|r|] && t == s[k..];
    PrefixOfSuffix(s, k, |r|);
    if r == [] {
      TrimmedToNothing(s, t);
    }
  }

  /** Cutting a suffix and then a prefix of it is one slice. */
  lemma PrefixOfSuffix<T>(s: seq<T>, k: nat, n: nat)
    requires k + n <= |s|
    ensures s[k..][..n] == s[k..k + n]
  {
  }

  /** When trimming both ends leaves nothing, the whole string was white space. */
  lemma TrimmedToNothing(s: string, t: string)
    requires t == TrimStart(s) && TrimEnd(t) == []
    ensures Blank(s)
  {
    assert t == [];
    forall i | 0 <= i < |s|
      ensures IsSpace(s[i])
    {
    }
  }

  /** The number of UTF-16 code units of `s`, which is what JavaScript's
      `length` counts: a character outside the Basic Multilingual Plane takes two. */
  function JsLength(s: string): (n: nat)
    ensures |s| <= n <= 2 * |s|
    ensures (forall i :: 0 <= i < |s| ==> s[i] <= '\U{FFFF}') ==> n == |s|
  {
    if s == [] then 0 else (if s[0] <= '\U{FFFF}' then 1 else 2) + JsLength(s[1..])
  }

  /** `s.slice(-k)` for k > 0: the last k characters, or all of `s` when it is
      shorter. Characters are scalar values; they are the UTF-16 units `slice`
      counts when `s` lies in the Basic Multilingual Plane. */
  function Suffix(s: string, k: nat): (r: string)
    ensures |r| == if |s| < k then |s| else k
    ensures r == s[|s| - |r|..]
    ensures (forall i :: 0 <= i < |s| ==> s[i] <= '\U{FFFF}') ==> JsLength(r) == |r|
  {
    if |s| < k then s else s[|s| - k..]
  }

  function DigitChar(d: nat): (c: char)
    requires d < 10
    ensures '0' <= c <= '9'
  {
    ['0', '1', '2', '3', '4', '5', '6', '7', '8', '9'][d]
  }

  function DigitValue(c: char): (d: nat)
    requires '0' <= c <= '9'
    ensures d < 10 && DigitChar(d) == c
  {
    (c as int - '0' as int) as nat
  }

  predicate IsDigits(s: string) {
    forall i :: 0 <= i < |s| ==> '0' <= s[i] <= '9'
  }

  /** The decimal rendering of a natural number, as `Number.prototype.toString` gives it. */
  function NatToString(n: nat): (s: string)
    ensures s != [] && IsDigits(s)
    ensures s[0] == '0' ==> n == 0 && s == "0"
  {
    if n < 10 then [DigitChar(n)] else NatToString(n / 10) + [DigitChar(n % 10)]
  }

  /** Reads a string of decimal digits back as a number. */
  function ParseDigits(s: string): (n: nat)
    requires IsDigits(s)
  {
    if s == [] then 0 else 10 * ParseDigits(s[..|s| - 1]) + DigitValue(s[|s| - 1])
  }

  /** Rendering a number in decimal loses nothing: parsing gives it back. */
  lemma {:induction false} NatToStringRoundTrip(n: nat)
    ensures ParseDigits(NatToString(n)) == n
  {
    var s := NatToString(n);
    if n >= 10 {
      NatToStringRoundTrip(n / 10);
      assert s[..|s| - 1] == NatToString(n / 10);
    }
  }

  /** Distinct numbers render as distinct strings. */
  lemma NatToStringInjective(m: nat, n: nat)
    ensures NatToString(m) == NatToString(n) ==> m == n
  {
    NatToStringRoundTrip(m);
    NatToStringRoundTrip(n);
  }

  /** The decimal rendering of an integer, with a leading '-' when negative. */
  function IntToString(i: int): (s: string)
    ensures s != []
    ensures i >= 0 ==> s == NatToString(i)
    ensures i < 0 ==> s == "-" + NatToString(-i)
  {
    if i < 0 then "-" + NatToString(-i) else NatToString(i)
  }

  /** A decimal integer literal: digits, optionally after a '-'. */
  predicate IsIntLiteral(s: string) {
    if |s| > 0 && s[0] == '-' then |s| > 1 && IsDigits(s[1..]) else |s| > 0 && IsDigits(s)
  }

  /** Reads an integer literal back (what a server's `Number(field)` does with it). */
  function ParseInt(s: string): int
    requires IsIntLiteral(s)
  {
    if |s| > 0 && s[0] == '-' then 0 - ParseDigits(s[1..]) as int else ParseDigits(s)
  }

  /** An integer sent as text is read back unchanged. */
  lemma IntToStringRoundTrip(i: int)
    ensures IsIntLiteral(IntToString(i)) && ParseInt(IntToString(i)) == i
  {
    if i < 0 {
      NatToStringRoundTrip(-i);
      NegativeLiteral(NatToString(-i));
    } else {
      NatToStringRoundTrip(i);
      DigitsLiteral(NatToString(i));
    }
  }

  /** A non-empty digit string is an integer literal worth its digits. */
  lemma DigitsLiteral(d: string)
    requires d != [] && IsDigits(d)
    ensures IsIntLiteral(d) && ParseInt(d) == ParseDigits(d)
  {
    assert '0' <= d[0] <= '9';
  }

  /** A '-' before a non-empty digit string makes the literal of its negation. */
  lemma NegativeLiteral(d: string)
    requires d != [] && IsDigits(d)
    ensures IsIntLiteral("-" + d) && ParseInt("-" + d) == -(ParseDigits(d) as int)
  {
    assert ("-" + d)[1..] == d;
  }
}
