/** The JavaScript string operations the front-end relies on, over `string` (= seq<char>):
    case mapping, `includes`, `trim`, `split(sep).pop()`, `startsWith`,
    `Number.prototype.toString` on whole numbers and `padStart`. */
module Text {

  // ---------------------------------------------------------------- case mapping

  /** `toLowerCase` restricted to the ASCII letters (other characters are kept). */
  function LowerChar(c: char): char
  {
    if 'A' <= c <= 'Z' then (c as int + 32) as char else c
  }

  /** `toUpperCase` restricted to the ASCII letters (other characters are kept). */
  function UpperChar(c: char): char
  {
    if 'a' <= c <= 'z' then (c as int - 32) as char else c
  }

  function ToLower(s: string): (r: string)
    ensures |r| == |s|
    ensures forall i :: 0 <= i < |s| ==> r[i] == LowerChar(s[i])
  {
    if s == [] then [] else [LowerChar(s[0])] + ToLower(s[1..])
  }

  function ToUpper(s: string): (r: string)
    ensures |r| == |s|
    ensures forall i :: 0 <= i < |s| ==> r[i] == UpperChar(s[i])
  {
    if s == [] then [] else [UpperChar(s[0])] + ToUpper(s[1..])
  }

  /** Lower-casing twice is lower-casing once, so a lower-cased search term matches itself. */
  lemma ToLowerIdempotent(s: string)
    ensures ToLower(ToLower(s)) == ToLower(s)
  {
    var t := ToLower(s);
    assert forall i :: 0 <= i < |t| ==> LowerChar(t[i]) == t[i];
  }

  // ---------------------------------------------------------------- includes

  /** `s.includes(t)`: some slice of `s` equals `t` (the empty string is in every string). */
  ghost predicate OccursAt(s: string, t: string, i: int)
  {
    0 <= i && i + |t| <= |s| && s[i..i + |t|] == t
  }

  /** `s.includes(t)`, scanning from the left. */
  function Contains(s: string, t: string): (b: bool)
    ensures b <==> exists i :: OccursAt(s, t, i)
    decreases |s|
  {
    if |t| <= |s| && s[..|t|] == t then
      assert OccursAt(s, t, 0);
      true
    else if |t| > |s| then
      assert forall i :: !OccursAt(s, t, i);
      false
    else
      var b := Contains(s[1..], t);
      assert forall i :: OccursAt(s[1..], t, i) <==> OccursAt(s, t, i + 1) by {
        forall i | 0 <= i && i + |t| <= |s| - 1
          ensures OccursAt(s[1..], t, i) <==> OccursAt(s, t, i + 1)
        {
          assert s[1..][i..i + |t|] == s[i + 1..i + 1 + |t|];
        }
      }
      assert !OccursAt(s, t, 0);
      assert (exists i :: OccursAt(s, t, i)) ==> exists i :: OccursAt(s[1..], t, i) by {
        if exists i :: OccursAt(s, t, i) {
          var i :| OccursAt(s, t, i);
          assert i >= 1 && OccursAt(s[1..], t, i - 1);
        }
      }
      b
  }

  // ---------------------------------------------------------------- trim

  /** The characters `String.prototype.trim` removes: the ECMAScript WhiteSpace and
      LineTerminator code points. */
  predicate IsSpace(c: char)
  {
    c == ' ' || c == '\t' || c == '\n' || c == '\r' || c == '\U{000B}' || c == '\U{000C}'
    || c == '\U{00A0}' || c == '\U{1680}' || ('\U{2000}' <= c <= '\U{200A}')
    || c == '\U{2028}' || c == '\U{2029}' || c == '\U{202F}' || c == '\U{205F}'
    || c == '\U{3000}' || c == '\U{FEFF}'
  }

  function TrimStart(s: string): (r: string)
    ensures |r| <= |s| && r == s[|s| - |r|..]
    ensures forall i :: 0 <= i < |s| - |r| ==> IsSpace(s[i])
    ensures r != [] ==> !IsSpace(r[0])
  {
    if s != [] && IsSpace(s[0]) then TrimStart(s[1..]) else s
  }

  function TrimEnd(s: string): (r: string)
    ensures |r| <= |s| && r == s[..|r|]
    ensures forall i :: |r| <= i < |s| ==> IsSpace(s[i])
    ensures r != [] ==> !IsSpace(r[|r| - 1])
  {
    if s != [] && IsSpace(s[|s| - 1]) then TrimEnd(s[..|s| - 1]) else s
  }

  /** `s.trim()`: `s` without its leading and trailing white space. */
  function Trim(s: string): (r: string)
  {
    TrimStart(TrimEnd(s))
  }

  /** `s.trim()` is empty exactly when every character of `s` is white space. */
  lemma TrimEmptyIff(s: string)
    ensures Trim(s) == [] <==> forall i :: 0 <= i < |s| ==> IsSpace(s[i])
  {
    var e := TrimEnd(s);
    if Trim(s) != [] {
      assert e != [] && !IsSpace(e[|e| - 1]) && s[|e| - 1] == e[|e| - 1];
    }
  }

  /** The bounds of the slice `s.trim()` keeps. */
  lemma TrimWindow(s: string) returns (i: int, j: int)
    ensures 0 <= i <= j <= |s| && Trim(s) == s[i..j]
    ensures forall k :: 0 <= k < i ==> IsSpace(s[k])
    ensures forall k :: j <= k < |s| ==> IsSpace(s[k])
  {
    var e := TrimEnd(s);
    var r := TrimStart(e);
    i, j := |e| - |r|, |e|;
    assert e == s[..j];
    assert r == s[i..j];
    forall k | 0 <= k < i
      ensures IsSpace(s[k])
    {
      assert s[k] == e[k];
    }
  }

  /** What `s.trim()` keeps is a slice of `s` that neither starts nor ends with white space,
      and everything cut off around it is white space. */
  lemma TrimIsSlice(s: string)
    ensures exists i, j :: (0 <= i <= j <= |s| && Trim(s) == s[i..j]
      && (forall k :: 0 <= k < i ==> IsSpace(s[k]))
      && (forall k :: j <= k < |s| ==> IsSpace(s[k])))
    ensures Trim(s) != [] ==> !IsSpace(Trim(s)[0]) && !IsSpace(Trim(s)[|Trim(s)| - 1])
  {
    var i, j := TrimWindow(s);
    var e, r := TrimEnd(s), Trim(s);
    if r != [] {
      assert r == e[|e| - |r|..];
      assert r[|r| - 1] == e[|e| - 1];
    }
  }

  // ---------------------------------------------------------------- split(sep).pop()

  /** `s.split(sep).pop()`. */
  function LastSegment(s: string, sep: char): string
  {
    if s == [] then []
    else if s[|s| - 1] == sep then []
    else LastSegment(s[..|s| - 1], sep) + [s[|s| - 1]]
  }

  /** The last segment is the text after the last `sep`: a suffix of `s` without `sep`,
      preceded in `s` by `sep` unless it is all of `s`. */
  lemma {:induction false} LastSegmentIsTextAfterLastSeparator(s: string, sep: char)
    ensures |LastSegment(s, sep)| <= |s| && LastSegment(s, sep) == s[|s| - |LastSegment(s, sep)|..]
    ensures sep !in LastSegment(s, sep)
    ensures |LastSegment(s, sep)| < |s| ==> s[|s| - |LastSegment(s, sep)| - 1] == sep
  {
    if s != [] && s[|s| - 1] != sep {
      var p, c := s[..|s| - 1], s[|s| - 1];
      LastSegmentIsTextAfterLastSeparator(p, sep);
      var r := LastSegment(p, sep);
      var t := r + [c];
      assert LastSegment(s, sep) == t;
      assert s == p + [c];
      assert s[|s| - |t|..] == p[|p| - |r|..] + [c];
      assert sep !in t by {
        assert forall x :: x in t ==> x in r || x == c;
      }
      if |t| < |s| {
        assert s[|s| - |t| - 1] == p[|p| - |r| - 1];
      }
    }
  }

  /** With no separator in `s`, the last segment is `s` itself. */
  lemma {:induction false} LastSegmentNoSeparator(s: string, sep: char)
    requires sep !in s
    ensures LastSegment(s, sep) == s
  {
    if s != [] {
      var p := s[..|s| - 1];
      assert sep !in p by {
        assert forall i :: 0 <= i < |p| ==> p[i] == s[i];
      }
      LastSegmentNoSeparator(p, sep);
      assert s == p + [s[|s| - 1]];
    }
  }

  /** Appending a separator and a separator-free tail makes that tail the last segment. */
  lemma {:induction false} LastSegmentAfterSeparator(s: string, sep: char, tail: string)
    requires sep !in tail
    ensures LastSegment(s + [sep] + tail, sep) == tail
  {
    var w := s + [sep] + tail;
    if tail == [] {
      assert w[|w| - 1] == sep;
    } else {
      var t := tail[..|tail| - 1];
      assert sep !in t by {
        assert forall i :: 0 <= i < |t| ==> t[i] == tail[i];
      }
      LastSegmentAfterSeparator(s, sep, t);
      assert w[..|w| - 1] == s + [sep] + t;
      assert w[|w| - 1] == tail[|tail| - 1];
      assert tail == t + [tail[|tail| - 1]];
    }
  }

  function StartsWith(s: string, prefix: string): bool
  {
    |prefix| <= |s| && s[..|prefix|] == prefix
  }

  // ---------------------------------------------------------------- whole numbers

  predicate IsDigit(c: char)
  {
    '0' <= c <= '9'
  }

  function DigitChar(d: nat): (c: char)
    requires d < 10
    ensures IsDigit(c)
  {
    ('0' as int + d) as char
  }

  function DigitValue(c: char): (d: nat)
    requires IsDigit(c)
    ensures d < 10 && DigitChar(d) == c
  {
    c as int - '0' as int
  }

  /** `String(n)` / `n.toString()` for a whole number: its decimal digits, without leading zeros. */
  function NatToString(n: nat): (r: string)
    ensures |r| >= 1
    ensures forall i :: 0 <= i < |r| ==> IsDigit(r[i])
    ensures r[0] == '0' ==> n == 0 && r == "0"
  {
    if n < 10 then [DigitChar(n)] else NatToString(n / 10) + [DigitChar(n % 10)]
  }

  /** The value of a string of decimal digits. */
  function ParseNat(s: string): nat
    requires forall i :: 0 <= i < |s| ==> IsDigit(s[i])
  {
    if s == [] then 0 else ParseNat(s[..|s| - 1]) * 10 + DigitValue(s[|s| - 1])
  }

  /** Printing a whole number and reading it back gives the number. */
  lemma {:induction false} ParseNatToString(n: nat)
    ensures ParseNat(NatToString(n)) == n
  {
    if n >= 10 {
      var s := NatToString(n / 10) + [DigitChar(n % 10)];
      assert s[..|s| - 1] == NatToString(n / 10);
      ParseNatToString(n / 10);
    }
  }

  /** Zeros in front of a digit string leave a digit string. */
  lemma ZerosThenDigits(k: nat, s: string)
    requires forall i :: 0 <= i < |s| ==> IsDigit(s[i])
    ensures forall i :: 0 <= i < |Repeat('0', k) + s| ==> IsDigit((Repeat('0', k) + s)[i])
  {
    var w := Repeat('0', k) + s;
    forall i | 0 <= i < |w|
      ensures IsDigit(w[i])
    {
      if i < k { assert w[i] == '0'; } else { assert w[i] == s[i - k]; }
    }
  }

  /** A string of zeros reads as 0. */
  lemma {:induction false} ParseNatZeros(k: nat)
    ensures forall i :: 0 <= i < k ==> IsDigit(Repeat('0', k)[i])
    ensures ParseNat(Repeat('0', k)) == 0
  {
    if k > 0 {
      ParseNatZeros(k - 1);
      var r := Repeat('0', k);
      assert r[..k - 1] == Repeat('0', k - 1);
      assert r[k - 1] == '0' && DigitValue(r[k - 1]) == 0;
      assert ParseNat(r) == ParseNat(r[..k - 1]) * 10 + DigitValue(r[k - 1]);
    }
  }

  /** Leading zeros do not change the value of a digit string. */
  lemma {:induction false} ParseNatLeadingZeros(k: nat, s: string)
    requires forall i :: 0 <= i < |s| ==> IsDigit(s[i])
    ensures forall i :: 0 <= i < |Repeat('0', k) + s| ==> IsDigit((Repeat('0', k) + s)[i])
    ensures ParseNat(Repeat('0', k) + s) == ParseNat(s)
  {
    var z := Repeat('0', k);
    var w := z + s;
    ZerosThenDigits(k, s);
    if s == [] {
      assert w == z;
      ParseNatZeros(k);
    } else {
      assert w[..|w| - 1] == z + s[..|s| - 1];
      ParseNatLeadingZeros(k, s[..|s| - 1]);
    }
  }

  function Repeat(c: char, k: nat): (r: string)
    ensures |r| == k
    ensures forall i :: 0 <= i < k ==> r[i] == c
  {
    if k == 0 then [] else Repeat(c, k - 1) + [c]
  }

  /** `s.padStart(width, c)`: `s` preceded by as many `c` as it takes to reach `width`. */
  function PadStart(s: string, width: nat, c: char): (r: string)
    ensures |r| == if |s| >= width then |s| else width
    ensures r[|r| - |s|..] == s
    ensures forall i :: 0 <= i < |r| - |s| ==> r[i] == c
  {
    if |s| >= width then s else Repeat(c, width - |s|) + s
  }
}
