/** The string operations the client applies while building URLs and paths:
    `toLowerCase`, `split(sep)[0]`, and the decimal text of a number inside a
    template literal, together with character counting used to state facts
    about query strings. */
module Strings {
  import opened JsValues

  // ---------------------------------------------------------------------
  // toLowerCase

  /** `toLowerCase` on one character, for ASCII letters. */
  function LowerChar(c: char): (r: char)
    ensures !('A' <= r <= 'Z')
    ensures !('A' <= c <= 'Z') ==> r == c
    ensures 'A' <= c <= 'Z' ==> r as int == c as int + 32
  {
    if 'A' <= c <= 'Z' then (c as int + 32) as char else c
  }

  /** `String.prototype.toLowerCase`, restricted to ASCII letters. */
  function Lower(s: string): (r: string)
    ensures |r| == |s|
    ensures forall i :: 0 <= i < |s| ==> r[i] == LowerChar(s[i])
  {
    if s == [] then [] else [LowerChar(s[0])] + Lower(s[1..])
  }

  /** Lower-casing introduces no character that is not a letter. */
  lemma LowerKeepsNonLetter(s: string, c: char)
    requires !('A' <= c <= 'Z') && !('a' <= c <= 'z')
    ensures c in Lower(s) <==> c in s
  {
    var r := Lower(s);
    if c in r {
      var i :| 0 <= i < |r| && r[i] == c;
      assert s[i] == c;
    }
    if c in s {
      var i :| 0 <= i < |s| && s[i] == c;
      assert r[i] == c;
    }
  }

  // ---------------------------------------------------------------------
  // Counting characters

  /** The number of occurrences of `c` in `s`. */
  function Count(s: string, c: char): (n: nat)
    ensures n <= |s|
    ensures n == 0 <==> c !in s
  {
    if s == [] then 0
    else
      assert s == [s[0]] + s[1..];
      (if s[0] == c then 1 else 0) + Count(s[1..], c)
  }

  /** Counting distributes over concatenation. */
  lemma {:induction false} CountConcat(a: string, b: string, c: char)
    ensures Count(a + b, c) == Count(a, c) + Count(b, c)
  {
    if a == [] {
      assert a + b == b;
    } else {
      assert (a + b)[0] == a[0];
      assert (a + b)[1..] == a[1..] + b;
      CountConcat(a[1..], b, c);
    }
  }

  /** A string with `c` exactly once counts one `c`. */
  lemma CountOnce(a: string, c: char, b: string)
    requires c !in a && c !in b
    ensures Count(a + [c] + b, c) == 1
  {
    CountConcat(a + [c], b, c);
    CountConcat(a, [c], c);
  }

  /** Counting in a concatenation of three strings. */
  lemma CountConcat3(a: string, b: string, d: string, c: char)
    ensures Count(a + b + d, c) == Count(a, c) + Count(b, c) + Count(d, c)
  {
    CountConcat(a + b, d, c);
    CountConcat(a, b, c);
  }

  // ---------------------------------------------------------------------
  // split(sep)[0]

  /** `sep` occurs in `s` starting at index `i`. */
  predicate OccursAt(s: string, sep: string, i: nat) {
    i + |sep| <= |s| && s[i..i + |sep|] == sep
  }

  /** An occurrence fixes the characters it covers. */
  lemma OccursAtChar(s: string, sep: string, i: nat, k: nat)
    requires k < |sep|
    ensures OccursAt(s, sep, i) ==> i + k < |s| && s[i + k] == sep[k]
  {
  }

  /** The first index at or after `i` where `sep` occurs in `s`. */
  function FindFrom(s: string, sep: string, i: nat): (r: Option<nat>)
    requires i <= |s|
    ensures r.Some? ==> i <= r.value <= |s| && OccursAt(s, sep, r.value)
    ensures r.Some? ==> forall j :: i <= j < r.value ==> !OccursAt(s, sep, j)
    ensures r.None? ==> forall j :: i <= j <= |s| ==> !OccursAt(s, sep, j)
    decreases |s| - i
  {
    if OccursAt(s, sep, i) then Some(i)
    else if i == |s| then None
    else FindFrom(s, sep, i + 1)
  }

  /** `s.split(sep)[0]`: the part of `s` before the first occurrence of
      `sep`, or all of `s` when `sep` does not occur. (JavaScript splits
      into single characters when `sep` is empty; the client never does
      that.) */
  function SplitHead(s: string, sep: string): (r: string)
    requires sep != ""
    ensures r <= s
    ensures r == s ==> forall j :: 0 <= j <= |s| ==> !OccursAt(s, sep, j)
    ensures r != s ==> OccursAt(s, sep, |r|)
    ensures forall j :: 0 <= j < |r| ==> !OccursAt(s, sep, j)
  {
    match FindFrom(s, sep, 0)
    case Some(k) => s[..k]
    case None => s
  }

  /** When the first occurrence of `sep` in `a + sep + b` is the one right
      after `a`, splitting on `sep` gives back `a`. */
  lemma SplitHeadAt(a: string, sep: string, b: string)
    requires sep != ""
    requires forall j :: 0 <= j < |a| ==> !OccursAt(a + sep + b, sep, j)
    ensures SplitHead(a + sep + b, sep) == a
  {
    var s := a + sep + b;
    assert s[|a|..|a| + |sep|] == sep;
    assert OccursAt(s, sep, |a|);
    var r := SplitHead(s, sep);
    assert r != s;
    assert |r| == |a|;
    assert a <= s;
  }

  // ---------------------------------------------------------------------
  // Decimal text of a number, `${n}`

  predicate IsDigit(c: char) {
    '0' <= c <= '9'
  }

  function DigitChar(d: nat): (c: char)
    requires d < 10
    ensures IsDigit(c)
  {
    ('0' as int + d) as char
  }

  /** The decimal digits of `n`, most significant first, without leading zeros. */
  function NatToString(n: nat): (r: string)
    ensures r != []
    ensures forall i :: 0 <= i < |r| ==> IsDigit(r[i])
    decreases n
  {
    if n < 10 then [DigitChar(n)] else NatToString(n / 10) + [DigitChar(n % 10)]
  }

  /** The value of a string of decimal digits. */
  function DigitsValue(s: string): nat
    requires forall i :: 0 <= i < |s| ==> IsDigit(s[i])
  {
    if s == [] then 0
    else
      assert IsDigit(s[|s| - 1]);
      DigitsValue(s[..|s| - 1]) * 10 + (s[|s| - 1] as int - '0' as int)
  }

  lemma {:induction false} NatToStringRoundTrip(n: nat)
    ensures DigitsValue(NatToString(n)) == n
    decreases n
  {
    if n >= 10 {
      var r := NatToString(n);
      assert r[..|r| - 1] == NatToString(n / 10);
      NatToStringRoundTrip(n / 10);
    }
  }

  /** `${n}` for an integral JavaScript number. */
  function IntToString(n: int): (r: string)
    ensures r != []
    ensures forall i :: 0 <= i < |r| ==> r[i] == '-' || IsDigit(r[i])
  {
    if n < 0 then "-" + NatToString(-n) else NatToString(n)
  }

  /** A default depth of 0 is written as the single digit "0". */
  lemma IntToStringZero()
    ensures IntToString(0) == "0"
  {
  }

  /** Reading back the decimal text of an integer. */
  function ParseInt(s: string): int
    requires s != []
    requires forall i :: 0 <= i < |s| ==> s[i] == '-' || IsDigit(s[i])
    requires forall i :: 1 <= i < |s| ==> IsDigit(s[i])
  {
    if s[0] == '-' then -(DigitsValue(s[1..]) as int) else DigitsValue(s)
  }

  /** The text of a number determines the number: `${n}` loses nothing. */
  lemma IntToStringRoundTrip(n: int)
    ensures var r := IntToString(n);
      (forall i :: 1 <= i < |r| ==> IsDigit(r[i])) && ParseInt(r) == n
  {
    var r := IntToString(n);
    if n < 0 {
      assert r[1..] == NatToString(-n);
      NatToStringRoundTrip(-n);
    } else {
      NatToStringRoundTrip(n);
    }
  }

  /** The text of a number holds no character other than digits and '-'. */
  lemma IntToStringAvoids(n: int, c: char)
    requires c != '-' && !IsDigit(c)
    ensures Count(IntToString(n), c) == 0
  {
  }
}
