/** String operations the scrapers use, over `seq<char>`: Python `str(n)`,
    `str.replace` of one character, `str.zfill(2)`, slicing `[:n]`,
    `str.strip` / JavaScript `String.prototype.trim`, ASCII case mapping
    and substring search. */
module Text {

  predicate IsDigit(c: char)
  {
    '0' <= c <= '9'
  }

  predicate AllDigits(s: string)
  {
    forall i :: 0 <= i < |s| ==> IsDigit(s[i])
  }

  predicate IsAsciiLetter(c: char)
  {
    'A' <= c <= 'Z' || 'a' <= c <= 'z'
  }

  function DigitChar(d: nat): (c: char)
    requires d < 10
    ensures IsDigit(c) && c as int - '0' as int == d
  {
    ('0' as int + d) as char
  }

  function DigitValue(c: char): (d: nat)
    requires IsDigit(c)
    ensures d < 10 && DigitChar(d) == c
  {
    c as int - '0' as int
  }

  /** Python `str(n)` for a non-negative integer: its decimal digits, with no
      leading zero except for 0 itself. */
  function NatToString(n: nat): (s: string)
    ensures |s| >= 1 && AllDigits(s)
    ensures (|s| == 1) == (n < 10)
    ensures s[0] == '0' ==> n == 0
    decreases n
  {
    if n < 10 then [DigitChar(n)] else NatToString(n / 10) + [DigitChar(n % 10)]
  }

  /** The number a string of decimal digits denotes (JavaScript
      `parseInt(s, 10)` and Python `int(s)` on such a string). */
  function DigitsValue(s: string): nat
    requires AllDigits(s)
  {
    if s == [] then 0 else 10 * DigitsValue(s[..|s| - 1]) + DigitValue(s[|s| - 1])
  }

  /** Reading back what `str(n)` printed gives n. */
  lemma {:induction false} DigitsValueOfNatToString(n: nat)
    ensures DigitsValue(NatToString(n)) == n
  {
    if n >= 10 {
      var s := NatToString(n);
      assert s[..|s| - 1] == NatToString(n / 10);
      DigitsValueOfNatToString(n / 10);
    }
  }

  /** Distinct numbers print differently, so an index embedded with `str(i)`
      identifies the record. */
  lemma NatToStringInjective(a: nat, b: nat)
    ensures NatToString(a) == NatToString(b) <==> a == b
  {
    if NatToString(a) == NatToString(b) {
      DigitsValueOfNatToString(a);
      DigitsValueOfNatToString(b);
    }
  }

  /** Numbers below 100 print in at most two digits. */
  lemma NatToStringBelowHundred(n: nat)
    requires n < 100
    ensures |NatToString(n)| <= 2
  {
    if n >= 10 {
      assert NatToString(n) == NatToString(n / 10) + [DigitChar(n % 10)];
    }
  }

  /** Leading zeros do not change the value of a digit string. */
  lemma {:induction false} DigitsValueLeadingZero(s: string)
    requires AllDigits(s)
    ensures AllDigits("0" + s) && DigitsValue("0" + s) == DigitsValue(s)
  {
    var t := "0" + s;
    if s != [] {
      assert t[..|t| - 1] == "0" + s[..|s| - 1];
      DigitsValueLeadingZero(s[..|s| - 1]);
    } else {
      assert t[..|t| - 1] == [];
    }
  }

  /** Python `s.zfill(2)` for a string of digits: left-padded with '0' to
      length two; longer strings are returned unchanged. */
  function ZFill2(s: string): (r: string)
    ensures |r| == (if |s| >= 2 then |s| else 2)
    ensures |s| >= 2 ==> r == s
    ensures |s| < 2 ==> r[2 - |s|..] == s && forall i :: 0 <= i < 2 - |s| ==> r[i] == '0'
  {
    if |s| >= 2 then s else if |s| == 1 then "0" + s else "00"
  }

  /** The zero-padded day `str(n).zfill(2)` has at least two digits, exactly two
      below 100, and still denotes n. */
  lemma ZFill2OfNatToString(n: nat)
    ensures var r := ZFill2(NatToString(n));
      |r| >= 2 && AllDigits(r) && DigitsValue(r) == n && (n < 100 ==> |r| == 2)
  {
    var s := NatToString(n);
    DigitsValueOfNatToString(n);
    if |s| == 1 {
      DigitsValueLeadingZero(s);
    }
    if n < 100 {
      NatToStringBelowHundred(n);
    }
  }

  /** Python `s.replace(c, r)` for a one-character pattern c. */
  function ReplaceChar(s: string, c: char, r: string): (t: string)
    ensures c !in r ==> c !in t
    ensures c !in s ==> t == s
  {
    if s == [] then [] else (if s[0] == c then r else [s[0]]) + ReplaceChar(s[1..], c, r)
  }

  lemma {:induction false} ReplaceCharAppend(a: string, b: string, c: char, r: string)
    ensures ReplaceChar(a + b, c, r) == ReplaceChar(a, c, r) + ReplaceChar(b, c, r)
  {
    if a == [] {
      assert a + b == b;
    } else {
      var t := a[1..];
      var h := if a[0] == c then r else [a[0]];
      var x, y := ReplaceChar(t, c, r), ReplaceChar(b, c, r);
      assert ReplaceChar(a + b, c, r) == h + (x + y) by {
        assert (a + b)[0] == a[0] && (a + b)[1..] == t + b;
        ReplaceCharAppend(t, b, c, r);
      }
      assert ReplaceChar(a, c, r) == h + x;
      assert h + (x + y) == (h + x) + y;
    }
  }

  /** Replacing c by d and then d by c restores a string that had no d in it:
      one-character encodings such as ' ' to '+' lose nothing. */
  lemma {:induction false} ReplaceCharRoundTrip(s: string, c: char, d: char)
    requires d !in s
    ensures ReplaceChar(ReplaceChar(s, c, [d]), d, [c]) == s
  {
    if s != [] {
      var head := if s[0] == c then [d] else [s[0]];
      assert ReplaceChar(s, c, [d]) == head + ReplaceChar(s[1..], c, [d]);
      ReplaceCharAppend(head, ReplaceChar(s[1..], c, [d]), d, [c]);
      ReplaceCharRoundTrip(s[1..], c, d);
    }
  }

  /** Python `s[:n]` for n >= 0. */
  function Take(s: string, n: nat): (t: string)
    ensures |t| == (if |s| < n then |s| else n) && t <= s
  {
    if |s| < n then s else s[..n]
  }

  function LowerChar(c: char): char
  {
    if 'A' <= c <= 'Z' then (c as int + 32) as char else c
  }

  function UpperChar(c: char): char
  {
    if 'a' <= c <= 'z' then (c as int - 32) as char else c
  }

  /** `str.lower()` on ASCII letters: A..Z become a..z, everything else stays. */
  function AsciiLower(s: string): (t: string)
    ensures |t| == |s|
    ensures forall i :: 0 <= i < |s| ==> !('A' <= t[i] <= 'Z')
    ensures forall i :: 0 <= i < |s| && !('A' <= s[i] <= 'Z') ==> t[i] == s[i]
  {
    if s == [] then [] else [LowerChar(s[0])] + AsciiLower(s[1..])
  }

  /** `str.upper()` on ASCII letters: a..z become A..Z, everything else stays. */
  function AsciiUpper(s: string): (t: string)
    ensures |t| == |s|
    ensures forall i :: 0 <= i < |s| ==> !('a' <= t[i] <= 'z')
    ensures forall i :: 0 <= i < |s| && !('a' <= s[i] <= 'z') ==> t[i] == s[i]
    ensures forall i :: 0 <= i < |s| ==> t[i] == UpperChar(s[i])
  {
    if s == [] then [] else [UpperChar(s[0])] + AsciiUpper(s[1..])
  }

  /** Lower-casing twice is lower-casing once. */
  lemma {:induction false} AsciiLowerIdempotent(s: string)
    ensures AsciiLower(AsciiLower(s)) == AsciiLower(s)
  {
    if s != [] {
      AsciiLowerIdempotent(s[1..]);
    }
  }

  /** sub occurs in s starting at index i. */
  predicate OccursAt(s: string, sub: string, i: nat)
  {
    i + |sub| <= |s| && s[i..i + |sub|] == sub
  }

  /** `sub in s` (Python) / `s.includes(sub)` (JavaScript). */
  predicate Contains(s: string, sub: string)
  {
    exists i: nat :: i <= |s| && OccursAt(s, sub, i)
  }

  lemma ContainsMiddle(a: string, sub: string, b: string)
    ensures Contains(a + sub + b, sub)
  {
    var s := a + sub + b;
    assert s[|a|..|a| + |sub|] == sub;
    assert OccursAt(s, sub, |a|);
  }

  /** Whitespace as Python's `str.strip()` sees it (`str.isspace`). */
  predicate IsPyWhitespace(c: char)
  {
    c == ' ' || '\t' <= c <= '\r' || '\U{1c}' <= c <= '\U{1f}' || c == '\U{85}' || c == '\U{a0}'
    || c == '\U{1680}' || '\U{2000}' <= c <= '\U{200a}' || c == '\U{2028}' || c == '\U{2029}'
    || c == '\U{202f}' || c == '\U{205f}' || c == '\U{3000}'
  }

  /** Whitespace as JavaScript's `\s` and `String.prototype.trim` see it. */
  predicate IsJsWhitespace(c: char)
  {
    c == ' ' || '\t' <= c <= '\r' || c == '\U{a0}' || c == '\U{1680}' || '\U{2000}' <= c <= '\U{200a}'
    || c == '\U{2028}' || c == '\U{2029}' || c == '\U{202f}' || c == '\U{205f}' || c == '\U{3000}'
    || c == '\U{feff}'
  }

  /** Number of leading characters of s that ws classifies as whitespace. */
  function LeadingCount(s: string, ws: char -> bool): (k: nat)
    ensures k <= |s|
    ensures forall i :: 0 <= i < k ==> ws(s[i])
    ensures k < |s| ==> !ws(s[k])
  {
    if s != [] && ws(s[0]) then 1 + LeadingCount(s[1..], ws) else 0
  }

  /** Number of trailing characters of s that ws classifies as whitespace. */
  function TrailingCount(s: string, ws: char -> bool): (k: nat)
    ensures k <= |s|
    ensures forall i :: |s| - k <= i < |s| ==> ws(s[i])
    ensures k < |s| ==> !ws(s[|s| - 1 - k])
  {
    if s != [] && ws(s[|s| - 1]) then 1 + TrailingCount(s[..|s| - 1], ws) else 0
  }

  /** `s.strip()` / `s.trim()` with the given notion of whitespace: the
      slice of s without its leading and trailing whitespace. */
  function Strip(s: string, ws: char -> bool): (t: string)
    ensures t == [] || (!ws(t[0]) && !ws(t[|t| - 1]))
  {
    var a := LeadingCount(s, ws);
    var rest := s[a..];
    rest[..|rest| - TrailingCount(rest, ws)]
  }

  /** The stripped string is a slice of the original, and only whitespace
      was cut from either end. */
  lemma StripIsSlice(s: string, ws: char -> bool)
    ensures exists i, j :: (0 <= i <= j <= |s| && Strip(s, ws) == s[i..j]
      && (forall k :: 0 <= k < i ==> ws(s[k])) && (forall k :: j <= k < |s| ==> ws(s[k])))
  {
    var a := LeadingCount(s, ws);
    var rest := s[a..];
    var b := TrailingCount(rest, ws);
    assert rest[..|rest| - b] == s[a..a + |rest| - b];
    assert forall k :: a + |rest| - b <= k < |s| ==> s[k] == rest[k - a];
  }

  /** Length of the run of digits starting at q. */
  function DigitRun(s: string, q: nat): (k: nat)
    requires q <= |s|
    ensures q + k <= |s|
    ensures forall j :: q <= j < q + k ==> IsDigit(s[j])
    ensures q + k < |s| ==> !IsDigit(s[q + k])
    decreases |s| - q
  {
    if q < |s| && IsDigit(s[q]) then 1 + DigitRun(s, q + 1) else 0
  }

  function Pow10(n: nat): nat
  {
    if n == 0 then 1 else 10 * Pow10(n - 1)
  }

  /** A string of n digits denotes a number below 10^n. */
  lemma {:induction false} DigitsValueBelow(s: string)
    requires AllDigits(s)
    ensures DigitsValue(s) < Pow10(|s|)
  {
    if s != [] {
      DigitsValueBelow(s[..|s| - 1]);
    }
  }
}
