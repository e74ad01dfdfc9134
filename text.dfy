/** String helpers standing in for the Rust standard library calls the core
    uses: `to_uppercase`, `split_once`, `starts_with`, integer `Display`
    and integer `FromStr`. Only ASCII letters are case-mapped. */
module Text {
  import opened Wrappers

  /** `char::to_uppercase` restricted to ASCII: a..z become A..Z. */
  function UpperChar(c: char): (u: char)
    ensures 'a' <= c <= 'z' ==> 'A' <= u <= 'Z' && u as int == c as int - 32
    ensures !('a' <= c <= 'z') ==> u == c
  {
    if 'a' <= c <= 'z' then (c as int - 32) as char else c
  }

  /** `str::to_uppercase` (ASCII): upper-case every character, keep the length. */
  function Upper(s: string): (u: string)
    ensures |u| == |s|
    ensures forall i :: 0 <= i < |s| ==> u[i] == UpperChar(s[i])
  {
    if s == [] then [] else [UpperChar(s[0])] + Upper(s[1..])
  }

  /** `char::to_lowercase` restricted to ASCII: A..Z become a..z. */
  function LowerChar(c: char): (l: char)
    ensures 'A' <= c <= 'Z' ==> 'a' <= l <= 'z' && l as int == c as int + 32
    ensures !('A' <= c <= 'Z') ==> l == c
  {
    if 'A' <= c <= 'Z' then (c as int + 32) as char else c
  }

  /** `str::to_lowercase` (ASCII). */
  function Lower(s: string): (l: string)
    ensures |l| == |s|
    ensures forall i :: 0 <= i < |s| ==> l[i] == LowerChar(s[i])
  {
    if s == [] then [] else [LowerChar(s[0])] + Lower(s[1..])
  }

  /** Upper-casing twice is upper-casing once. */
  lemma UpperIdempotent(s: string)
    ensures Upper(Upper(s)) == Upper(s)
  {
  }

  /** Upper-casing neither adds nor removes a separator character that is
      not a letter. */
  lemma UpperKeepsSeparator(s: string, c: char)
    requires !('a' <= c <= 'z') && !('A' <= c <= 'Z')
    ensures c in s <==> c in Upper(s)
  {
    if c in s {
      var i :| 0 <= i < |s| && s[i] == c;
      assert Upper(s)[i] == c;
    }
    if c in Upper(s) {
      var i :| 0 <= i < |Upper(s)| && Upper(s)[i] == c;
      assert s[i] == c;
    }
  }

  /** Position of the first occurrence of `c` in `s`. */
  function IndexOf(s: string, c: char): (r: Option<nat>)
    ensures r.None? <==> c !in s
    ensures r.Some? ==> r.value < |s| && s[r.value] == c && c !in s[..r.value]
  {
    if s == [] then None
    else if s[0] == c then Some(0)
    else
      match IndexOf(s[1..], c)
      case None => None
      case Some(i) =>
        assert s[1..][..i] == s[1..i + 1];
        Some(i + 1)
  }

  /** `str::split_once(c)`: the text before and after the first `c`. */
  function SplitOnce(s: string, c: char): (r: Option<(string, string)>)
    ensures r.None? <==> c !in s
    ensures r.Some? ==> s == r.value.0 + [c] + r.value.1 && c !in r.value.0
  {
    match IndexOf(s, c)
    case None => None
    case Some(i) =>
      assert s == s[..i] + [c] + s[i + 1..];
      Some((s[..i], s[i + 1..]))
  }

  /** Joining two parts with a separator the first part does not contain,
      then splitting at the first separator, gives the parts back. */
  lemma {:induction false} SplitOnceJoin(a: string, c: char, b: string)
    ensures c !in a ==> SplitOnce(a + [c] + b, c) == Some((a, b))
  {
    if c !in a {
      var s := a + [c] + b;
      assert s[|a|] == c;
      var i := IndexOf(s, c).value;
      assert i == |a|;
      assert s[..i] == a;
      assert s[i + 1..] == b;
    }
  }

  /** The decimal digit character for 0..9. */
  function DigitChar(d: nat): (c: char)
    requires d < 10
    ensures '0' <= c <= '9'
  {
    ('0' as int + d) as char
  }

  function DigitValue(c: char): nat
    requires '0' <= c <= '9'
  {
    c as int - '0' as int
  }

  predicate AllDigits(s: string) {
    forall i :: 0 <= i < |s| ==> '0' <= s[i] <= '9'
  }

  /** The number a string of decimal digits denotes. */
  function DigitsValue(s: string): nat
    requires AllDigits(s)
  {
    if s == [] then 0 else DigitsValue(s[..|s| - 1]) * 10 + DigitValue(s[|s| - 1])
  }

  /** `Display` for an unsigned integer: shortest decimal form. */
  function NatToString(n: nat): (s: string)
    ensures |s| >= 1 && AllDigits(s)
    ensures |s| > 1 ==> s[0] != '0'
  {
    if n < 10 then [DigitChar(n)] else NatToString(n / 10) + [DigitChar(n % 10)]
  }

  /** `Display` for a signed integer. */
  function IntToString(i: int): (s: string)
    ensures |s| >= 1
    ensures i < 0 <==> s[0] == '-'
  {
    if i < 0 then "-" + NatToString(-i) else NatToString(i)
  }

  /** Reading back the decimal form of `n` gives `n`. */
  lemma {:induction false} DigitsOfNatToString(n: nat)
    ensures DigitsValue(NatToString(n)) == n
  {
    if n >= 10 {
      DigitsOfNatToString(n / 10);
      var s := NatToString(n);
      assert s[..|s| - 1] == NatToString(n / 10);
    }
  }

  /** Unsigned `FromStr` with an upper bound: an optional leading '+', then
      one or more decimal digits, denoting at most `max`. Anything else
      (the empty string, a sign alone, a non-digit, an overflow) fails. */
  function ParseUnsigned(s: string, max: nat): (r: Option<nat>)
    ensures r.Some? ==> r.value <= max
    ensures r.Some? ==> s != [] && s != "+"
  {
    var digits := if |s| > 0 && s[0] == '+' then s[1..] else s;
    if digits == [] || !AllDigits(digits) then None
    else if DigitsValue(digits) > max then None
    else Some(DigitsValue(digits))
  }

  /** Parsing a number's decimal form gives the number back, when it fits. */
  lemma ParseNatToString(n: nat, max: nat)
    ensures ParseUnsigned(NatToString(n), max) == if n <= max then Some(n) else None
  {
    DigitsOfNatToString(n);
  }

  function Min(a: nat, b: nat): nat {
    if a < b then a else b
  }
}
