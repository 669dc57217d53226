/**
 * String helpers shared by the model: the parts of Go's `strings` package
 * the repository relies on (TrimSpace, ToLower, HasPrefix, Contains, Join,
 * SplitN on one separator) and decimal formatting of integers.
 */
module Text {

  import opened Wrappers

  /** Go's unicode.IsSpace: the white-space code points TrimSpace removes. */
  predicate IsSpace(c: char) {
    || c == ' ' || c == '\t' || c == '\n' || c == '\U{000B}' || c == '\U{000C}' || c == '\r'
    || c == '\U{0085}' || c == '\U{00A0}' || c == '\U{1680}'
    || ('\U{2000}' <= c <= '\U{200A}')
    || c == '\U{2028}' || c == '\U{2029}' || c == '\U{202F}' || c == '\U{205F}' || c == '\U{3000}'
  }

  /** Drops leading white space. */
  function TrimLeft(s: string): (r: string)
    ensures |r| <= |s|
  {
    if s != [] && IsSpace(s[0]) then TrimLeft(s[1..]) else s
  }

  /** Drops trailing white space. */
  function TrimRight(s: string): (r: string)
    ensures |r| <= |s|
  {
    if s != [] && IsSpace(s[|s| - 1]) then TrimRight(s[..|s| - 1]) else s
  }

  /** TrimLeft removes white space only. */
  lemma {:induction false} TrimLeftRemovesSpace(s: string)
    ensures forall i :: 0 <= i < |s| - |TrimLeft(s)| ==> IsSpace(s[i])
  {
    if s != [] && IsSpace(s[0]) {
      TrimLeftRemovesSpace(s[1..]);
    }
  }

  /** TrimRight removes white space only. */
  lemma {:induction false} TrimRightRemovesSpace(s: string)
    ensures forall i :: |TrimRight(s)| <= i < |s| ==> IsSpace(s[i])
  {
    if s != [] && IsSpace(s[|s| - 1]) {
      TrimRightRemovesSpace(s[..|s| - 1]);
    }
  }

  /** strings.TrimSpace */
  function TrimSpace(s: string): string {
    TrimRight(TrimLeft(s))
  }

  /** A string that neither starts nor ends with white space is its own trimmed form. */
  lemma TrimSpaceOfTrimmed(s: string)
    requires s == [] || (!IsSpace(s[0]) && !IsSpace(s[|s| - 1]))
    ensures TrimSpace(s) == s
  {
  }

  /** TrimLeft leaves a string that does not start with white space. */
  lemma {:induction false} TrimLeftStartsClean(s: string)
    ensures TrimLeft(s) == [] || !IsSpace(TrimLeft(s)[0])
  {
    if s != [] && IsSpace(s[0]) {
      TrimLeftStartsClean(s[1..]);
    }
  }

  /** TrimRight keeps a prefix that does not end with white space. */
  lemma {:induction false} TrimRightIsCleanPrefix(s: string)
    ensures TrimRight(s) == s[..|TrimRight(s)|]
    ensures TrimRight(s) == [] || !IsSpace(TrimRight(s)[|TrimRight(s)| - 1])
  {
    if s != [] && IsSpace(s[|s| - 1]) {
      TrimRightIsCleanPrefix(s[..|s| - 1]);
    }
  }

  /** A trimmed string neither starts nor ends with white space. */
  lemma TrimSpaceEndsClean(s: string)
    ensures TrimSpace(s) == [] || (!IsSpace(TrimSpace(s)[0]) && !IsSpace(TrimSpace(s)[|TrimSpace(s)| - 1]))
  {
    TrimLeftStartsClean(s);
    TrimRightIsCleanPrefix(TrimLeft(s));
  }

  /** Trimming twice is trimming once. */
  lemma TrimSpaceIdempotent(s: string)
    ensures TrimSpace(TrimSpace(s)) == TrimSpace(s)
  {
    TrimSpaceEndsClean(s);
    TrimSpaceOfTrimmed(TrimSpace(s));
  }

  /** A string of white space only: the test `strings.TrimSpace(s) == ""` (see BlankIffTrimsToEmpty). */
  predicate IsBlank(s: string) {
    s == [] || (IsSpace(s[0]) && IsBlank(s[1..]))
  }

  /** A blank string consists of white space only. */
  lemma {:induction false} BlankIsAllSpace(s: string)
    ensures IsBlank(s) <==> forall i :: 0 <= i < |s| ==> IsSpace(s[i])
  {
    if s != [] {
      BlankIsAllSpace(s[1..]);
      assert forall i :: 1 <= i < |s| ==> s[i] == s[1..][i - 1];
    }
  }

  /** A string is blank exactly when nothing is left after trimming it. */
  lemma BlankIffTrimsToEmpty(s: string)
    ensures IsBlank(s) <==> TrimSpace(s) == []
  {
    BlankIsAllSpace(s);
    TrimLeftRemovesSpace(s);
    TrimRightRemovesSpace(TrimLeft(s));
  }

  /** ASCII lower-casing of one character. */
  function LowerChar(c: char): char {
    if 'A' <= c <= 'Z' then (c as int + 32) as char else c
  }

  /** strings.ToLower, restricted to the ASCII letters. */
  function ToLower(s: string): (r: string)
    ensures |r| == |s|
    ensures forall i :: 0 <= i < |s| ==> r[i] == LowerChar(s[i])
  {
    if s == [] then [] else [LowerChar(s[0])] + ToLower(s[1..])
  }

  /** Lower-casing is idempotent, so a lower-cased key matches like its source. */
  lemma ToLowerIdempotent(s: string)
    ensures ToLower(ToLower(s)) == ToLower(s)
  {
  }

  predicate HasPrefix(s: string, p: string) {
    |p| <= |s| && s[..|p|] == p
  }

  /** strings.TrimPrefix */
  function TrimPrefix(s: string, p: string): (r: string)
    ensures HasPrefix(s, p) ==> s == p + r
    ensures !HasPrefix(s, p) ==> r == s
  {
    if HasPrefix(s, p) then s[|p|..] else s
  }

  /** strings.Contains */
  predicate Contains(s: string, sub: string) {
    HasPrefix(s, sub) || (s != [] && Contains(s[1..], sub))
  }

  /** strings.Join */
  function Join(parts: seq<string>, sep: string): string {
    if parts == [] then ""
    else if |parts| == 1 then parts[0]
    else parts[0] + sep + Join(parts[1..], sep)
  }

  /** Index of the first occurrence of `c`, if any. */
  function IndexOf(s: string, c: char): (r: Option<nat>)
    ensures r.Some? ==> r.value < |s| && s[r.value] == c && c !in s[..r.value]
    ensures r.None? ==> c !in s
  {
    if s == [] then None
    else if s[0] == c then Some(0)
    else match IndexOf(s[1..], c)
      case None => None
      case Some(k) => Some(k + 1)
  }

  /** In `u + [c] + t` with no c in u, the first c sits right after u. */
  lemma {:induction false} IndexOfAfter(u: string, c: char, t: string)
    requires c !in u
    ensures IndexOf(u + [c] + t, c) == Some(|u|)
  {
    var s := u + [c] + t;
    if u == [] {
      assert s[0] == c;
    } else {
      assert s[0] == u[0];
      assert s[1..] == u[1..] + [c] + t;
      IndexOfAfter(u[1..], c, t);
    }
  }

  function DigitChar(d: nat): char
    requires d < 10
  {
    "0123456789"[d]
  }

  /** Decimal digits of a natural number (strconv.FormatInt / %d for n >= 0). */
  function NatToDecimal(n: nat): (r: string)
    ensures r != []
    ensures forall i :: 0 <= i < |r| ==> '0' <= r[i] <= '9'
  {
    if n < 10 then [DigitChar(n)] else NatToDecimal(n / 10) + [DigitChar(n % 10)]
  }

  /** %d of any integer. */
  function IntToDecimal(n: int): string {
    if n < 0 then "-" + NatToDecimal(-n) else NatToDecimal(n)
  }

  /** The value of a string of decimal digits. */
  function DecimalValue(s: string): nat
    requires forall i :: 0 <= i < |s| ==> '0' <= s[i] <= '9'
  {
    if s == [] then 0 else DecimalValue(s[..|s| - 1]) * 10 + (s[|s| - 1] as int - '0' as int)
  }

  /** Decimal rendering loses nothing: reading the digits back gives the number. */
  lemma {:induction false} DecimalRoundTrip(n: nat)
    ensures DecimalValue(NatToDecimal(n)) == n
  {
    var r := NatToDecimal(n);
    if n >= 10 {
      DecimalRoundTrip(n / 10);
      assert r[..|r| - 1] == NatToDecimal(n / 10);
    }
  }
}
