/**
 * The few JavaScript string operations the resolver relies on:
 * `split` with a one-character separator (and its inverse, joining),
 * `toLowerCase` on ASCII letters, and the rendering of integers in
 * base 10 (template literals) and base 16 (`BigInt.prototype.toString(16)`).
 */
module Strings {

  // ---------------------------------------------------------------------
  // split / join

  /** Position of the first occurrence of `c` in `s`. */
  function FirstIndex(s: string, c: char): (i: nat)
    requires c in s
    ensures i < |s| && s[i] == c && c !in s[..i]
  {
    if s[0] == c then 0
    else
      var j := FirstIndex(s[1..], c);
      assert s[..j + 1] == [s[0]] + s[1..][..j];
      j + 1
  }

  /**
   * `s.split(sep)`: the pieces between occurrences of `sep`. An empty
   * string splits into one empty piece, and no piece contains `sep`.
   */
  function Split(s: string, sep: char): (parts: seq<string>)
    ensures |parts| >= 1
    ensures forall k :: 0 <= k < |parts| ==> sep !in parts[k]
    decreases |s|
  {
    if sep in s then
      var i := FirstIndex(s, sep);
      [s[..i]] + Split(s[i + 1..], sep)
    else
      [s]
  }

  /** `s.startsWith(prefix)`. */
  predicate StartsWith(s: string, prefix: string) {
    |prefix| <= |s| && s[..|prefix|] == prefix
  }

  /** `parts.join(sep)`. */
  function Join(parts: seq<string>, sep: char): string
    requires |parts| >= 1
  {
    if |parts| == 1 then parts[0] else parts[0] + [sep] + Join(parts[1..], sep)
  }

  /** Splitting at a separator that the first piece does not contain peels that piece off. */
  lemma SplitConcat(a: string, b: string, sep: char)
    requires sep !in a
    ensures Split(a + [sep] + b, sep) == [a] + Split(b, sep)
  {
    var s := a + [sep] + b;
    assert s[|a|] == sep;
    var i := FirstIndex(s, sep);
    assert i == |a|;
    assert s[..i] == a;
    assert s[i + 1..] == b;
  }

  /** Joining parts free of the separator and splitting again gives the parts back. */
  lemma {:induction false} SplitJoin(parts: seq<string>, sep: char)
    requires |parts| >= 1
    requires forall k :: 0 <= k < |parts| ==> sep !in parts[k]
    ensures Split(Join(parts, sep), sep) == parts
  {
    if |parts| == 1 {
      assert Split(parts[0], sep) == [parts[0]];
    } else {
      SplitJoin(parts[1..], sep);
      SplitConcat(parts[0], Join(parts[1..], sep), sep);
      assert [parts[0]] + parts[1..] == parts;
    }
  }

  /** Splitting and joining again gives the original string back. */
  lemma {:induction false} JoinSplit(s: string, sep: char)
    ensures Join(Split(s, sep), sep) == s
    decreases |s|
  {
    if sep in s {
      var i := FirstIndex(s, sep);
      JoinSplit(s[i + 1..], sep);
      var parts := Split(s, sep);
      assert parts[1..] == Split(s[i + 1..], sep);
      assert s == s[..i] + [sep] + s[i + 1..];
    }
  }

  /** The five-piece joins the resolver builds, written out. */
  lemma JoinFive(a: string, b: string, c: string, d: string, e: string, sep: char)
    ensures Join([a, b, c, d, e], sep) == a + [sep] + b + [sep] + c + [sep] + d + [sep] + e
  {
    var parts := [a, b, c, d, e];
    assert parts[1..] == [b, c, d, e];
    assert parts[1..][1..] == [c, d, e];
    assert parts[1..][1..][1..] == [d, e];
    assert parts[1..][1..][1..][1..] == [e];
    assert Join([d, e], sep) == d + [sep] + e;
    assert Join([c, d, e], sep) == c + [sep] + (d + [sep] + e);
    assert Join([b, c, d, e], sep) == b + [sep] + (c + [sep] + (d + [sep] + e));
  }

  /** The six-piece joins the resolver builds, written out. */
  lemma JoinSix(a: string, b: string, c: string, d: string, e: string, f: string, sep: char)
    ensures Join([a, b, c, d, e, f], sep) == a + [sep] + b + [sep] + c + [sep] + d + [sep] + e + [sep] + f
  {
    var parts := [a, b, c, d, e, f];
    assert parts[1..] == [b, c, d, e, f];
    JoinFive(b, c, d, e, f, sep);
  }

  // ---------------------------------------------------------------------
  // toLowerCase

  predicate IsUpper(c: char) {
    'A' <= c <= 'Z'
  }

  /** No upper-case ASCII letter in `s`. */
  predicate IsLowerCase(s: string) {
    forall i :: 0 <= i < |s| ==> !IsUpper(s[i])
  }

  /** An upper-case ASCII letter becomes its lower-case letter; any other character is kept. */
  function LowerChar(c: char): (d: char)
    ensures !IsUpper(d)
    ensures IsUpper(c) ==> d as int == c as int + 32
    ensures !IsUpper(c) ==> d == c
  {
    if IsUpper(c) then (c as int - 'A' as int + 'a' as int) as char else c
  }

  /**
   * `s.toLowerCase()` for ASCII: every upper-case letter of `s` becomes
   * its lower-case letter in place, and every other character is kept.
   */
  function Lower(s: string): (r: string)
    ensures |r| == |s|
    ensures IsLowerCase(r)
    ensures forall i :: 0 <= i < |s| && IsUpper(s[i]) ==> r[i] as int == s[i] as int + 32
    ensures forall i :: 0 <= i < |s| && !IsUpper(s[i]) ==> r[i] == s[i]
  {
    if s == [] then [] else [LowerChar(s[0])] + Lower(s[1..])
  }

  // ---------------------------------------------------------------------
  // number rendering

  /** The value of a digit character in bases up to 16 (lower-case letters); 16 for anything else. */
  function DigitValue(c: char): (v: nat)
    ensures v <= 16
  {
    if '0' <= c <= '9' then c as nat - '0' as nat
    else if 'a' <= c <= 'f' then c as nat - 'a' as nat + 10
    else 16
  }

  /** The character for digit `d`; its value is `d` again. */
  function DigitChar(d: nat): (c: char)
    requires d < 16
    ensures DigitValue(c) == d
  {
    if d < 10 then ('0' as nat + d) as char else ('a' as nat + d - 10) as char
  }

  /** `n.toString(radix)`: the shortest digit string, lower-case letters, no sign. */
  function NatToString(n: nat, radix: nat): (s: string)
    requires 2 <= radix <= 16
    ensures |s| >= 1
    ensures forall i :: 0 <= i < |s| ==> DigitValue(s[i]) < radix
    ensures s[0] == '0' ==> n == 0 && s == "0"
    decreases n
  {
    if n < radix then [DigitChar(n)]
    else
      DivisionFacts(n, radix);
      NatToString(n / radix, radix) + [DigitChar(n % radix)]
  }

  lemma DivisionFacts(n: nat, radix: nat)
    requires 2 <= radix <= n
    ensures 1 <= n / radix < n && n % radix < radix
    ensures n == (n / radix) * radix + n % radix
  {
  }

  /** The number a digit string denotes in base `radix` (the inverse reading). */
  function ValueOf(s: string, radix: nat): nat
    requires 2 <= radix <= 16
    requires forall i :: 0 <= i < |s| ==> DigitValue(s[i]) < radix
  {
    if s == [] then 0 else ValueOf(s[..|s| - 1], radix) * radix + DigitValue(s[|s| - 1])
  }

  /** Rendering a number and reading it back gives the number. */
  lemma {:induction false} NatToStringRoundTrip(n: nat, radix: nat)
    requires 2 <= radix <= 16
    ensures ValueOf(NatToString(n, radix), radix) == n
    decreases n
  {
    var s := NatToString(n, radix);
    if n >= radix {
      DivisionFacts(n, radix);
      var q, d := n / radix, n % radix;
      var prefix := NatToString(q, radix);
      NatToStringRoundTrip(q, radix);
      assert s == prefix + [DigitChar(d)];
      assert s[..|s| - 1] == prefix;
      assert DigitValue(s[|s| - 1]) == d;
      calc {
        ValueOf(s, radix);
        ValueOf(prefix, radix) * radix + d;
        q * radix + d;
      }
    }
  }

  /** `${i}` for an integer: decimal, with a leading `-` exactly when negative. */
  function IntToString(i: int): (s: string)
    ensures |s| >= 1
    ensures s[0] == '-' <==> i < 0
  {
    if i < 0 then "-" + NatToString(-i, 10) else NatToString(i, 10)
  }

  /** A decimal numeral with an optional leading `-`. */
  predicate IsDecimalInt(s: string) {
    && |s| >= 1
    && (s[0] == '-' ==> forall i :: 1 <= i < |s| ==> DigitValue(s[i]) < 10)
    && (s[0] != '-' ==> forall i :: 0 <= i < |s| ==> DigitValue(s[i]) < 10)
  }

  /** Reading back what IntToString wrote. */
  function SignedValueOf(s: string): int
    requires IsDecimalInt(s)
  {
    if s[0] == '-' then -(ValueOf(s[1..], 10) as int) else ValueOf(s, 10)
  }

  /** Rendering an integer in decimal loses nothing. */
  lemma IntToStringRoundTrip(i: int)
    ensures IsDecimalInt(IntToString(i))
    ensures SignedValueOf(IntToString(i)) == i
  {
    if i < 0 {
      NatToStringRoundTrip(-i, 10);
      assert IntToString(i)[1..] == NatToString(-i, 10);
    } else {
      NatToStringRoundTrip(i, 10);
    }
  }

  /** A decimal numeral holds no character other than `-` and digits, so no separator such as `,`. */
  lemma DecimalIntFree(s: string, sep: char)
    requires IsDecimalInt(s) && sep != '-' && DigitValue(sep) >= 10
    ensures sep !in s
  {
    assert forall i :: 0 <= i < |s| ==> s[i] != sep by {
      forall i | 0 <= i < |s|
        ensures s[i] != sep
      {
        if s[i] != '-' {
          assert DigitValue(s[i]) < 10;
        }
      }
    }
  }

  /**
   * Two integers written `${x},${y}` split at the comma into their two
   * renderings, and each reads back as its integer.
   */
  lemma DecimalPairReadBack(x: int, y: int)
    ensures Split(IntToString(x) + "," + IntToString(y), ',') == [IntToString(x), IntToString(y)]
    ensures IsDecimalInt(IntToString(x)) && SignedValueOf(IntToString(x)) == x
    ensures IsDecimalInt(IntToString(y)) && SignedValueOf(IntToString(y)) == y
  {
    IntToStringRoundTrip(x);
    IntToStringRoundTrip(y);
    DecimalIntFree(IntToString(x), ',');
    DecimalIntFree(IntToString(y), ',');
    SplitConcat(IntToString(x), IntToString(y), ',');
    assert IntToString(x) + "," + IntToString(y) == IntToString(x) + [','] + IntToString(y);
  }
}
