/** What the API and mock scrapers share: the result record, the error
    results their handlers append, the keyword slugs and date stamps their
    generated records embed, and the facts that make the generated
    identifiers distinct. */
module MockCommon {
  import opened Prelude
  import opened Text

  /** A result dictionary: `data` on success, `error` on failure. */
  datatype ScrapeResult<T> = ScrapeResult(keyword: string, source: string, data: Option<seq<T>>, error: Option<string>)

  /** The error result every handler appends for one keyword. */
  function ErrorResult<T>(keyword: string, source: string, message: string): ScrapeResult<T>
  {
    ScrapeResult(keyword, source, None, Some(message))
  }

  /** The handlers' `for keyword in keywords: results.append(error)`. */
  method AppendErrorResults<T>(results: seq<ScrapeResult<T>>, keywords: seq<string>, source: string, message: string)
    returns (out: seq<ScrapeResult<T>>)
    ensures |out| == |results| + |keywords| && out[..|results|] == results
    ensures forall j :: 0 <= j < |keywords| ==> out[|results| + j] == ErrorResult(keywords[j], source, message)
  {
    out := results;
    var j := 0;
    while j < |keywords|
      invariant 0 <= j <= |keywords| && |out| == |results| + j && out[..|results|] == results
      invariant forall k :: 0 <= k < j ==> out[|results| + k] == ErrorResult(keywords[k], source, message)
    {
      out := out + [ErrorResult(keywords[j], source, message)];
      j := j + 1;
    }
  }

  /** `keyword.replace(' ', '_')`. */
  function Underscored(keyword: string): (u: string)
    ensures ' ' !in u
  {
    ReplaceChar(keyword, ' ', "_")
  }

  /** `keyword.replace(' ', '')`. */
  function Unspaced(keyword: string): (u: string)
    ensures ' ' !in u
  {
    ReplaceChar(keyword, ' ', "")
  }

  /** `keyword.replace(' ', '-')`. */
  function Dashed(keyword: string): (u: string)
    ensures ' ' !in u
  {
    ReplaceChar(keyword, ' ', "-")
  }

  /** `keyword.replace(' ', '')[:3].upper()`: at most three characters, no
      space and no ASCII lower-case letter. */
  function ShortCode(keyword: string): (c: string)
    ensures |c| <= 3 && ' ' !in c
    ensures forall k :: 0 <= k < |c| ==> !('a' <= c[k] <= 'z')
  {
    var t := Take(Unspaced(keyword), 3);
    assert forall k :: 0 <= k < |t| ==> t[k] == Unspaced(keyword)[k];
    assert forall k :: 0 <= k < |t| ==> AsciiUpper(t)[k] != ' ' by {
      forall k | 0 <= k < |t| ensures AsciiUpper(t)[k] != ' ' {
        assert t[k] != ' ';
      }
    }
    AsciiUpper(t)
  }

  /** `f"2023-01-{str(i + 1).zfill(2)}T12:00:00Z"`. */
  function PaddedStamp(i: nat): string
  {
    "2023-01-" + ZFill2(NatToString(i + 1)) + "T12:00:00Z"
  }

  /** `f"2023-01-0{i + 1}T12:00:00Z"`: the day is not padded but prefixed. */
  function ZeroPrefixedStamp(i: nat): string
  {
    "2023-01-0" + NatToString(i + 1) + "T12:00:00Z"
  }

  /** For the first 99 records the padded stamp is a well-formed date-time
      whose two day digits denote i + 1. */
  lemma PaddedStampDay(i: nat)
    requires i < 99
    ensures var s := PaddedStamp(i); |s| == 20 && AllDigits(s[8..10]) && DigitsValue(s[8..10]) == i + 1
  {
    ZFill2OfNatToString(i + 1);
    var d := ZFill2(NatToString(i + 1));
    assert PaddedStamp(i)[8..10] == d;
  }

  /** From the tenth record on, the unpadded stamp has a three-digit day
      ("2023-01-010T12:00:00Z" for i = 9), so it is not a date. */
  lemma ZeroPrefixedStampOverflows(i: nat)
    requires 9 <= i < 99
    ensures |ZeroPrefixedStamp(i)| == 21 && ZeroPrefixedStamp(i)[8] == '0'
  {
    assert NatToString(i + 1) == NatToString((i + 1) / 10) + [DigitChar((i + 1) % 10)];
  }

  lemma TenthStamp()
    ensures ZeroPrefixedStamp(9) == "2023-01-010T12:00:00Z"
  {
    assert NatToString(10) == NatToString(1) + [DigitChar(0)];
  }

  /** Splitting at the first occurrence of a separator that neither head
      contains recovers both heads and both tails. */
  lemma SplitAtSeparator(a: string, b: string, x: string, y: string, sep: char)
    requires sep !in a && sep !in b && a + [sep] + x == b + [sep] + y
    ensures a == b && x == y
  {
    var s := a + [sep] + x;
    assert s[|a|] == sep && s[|b|] == sep;
    assert forall k :: 0 <= k < |a| ==> s[k] == a[k] && s[k] != sep;
    assert forall k :: 0 <= k < |b| ==> s[k] == b[k] && s[k] != sep;
    assert |a| == |b|;
    assert a == s[..|a|] && b == (b + [sep] + y)[..|b|];
    assert x == s[|a| + 1..] && y == (b + [sep] + y)[|b| + 1..];
  }

  lemma DigitsHaveNo(i: nat, c: char)
    requires !IsDigit(c)
    ensures c !in NatToString(i)
  {
    var s := NatToString(i);
    assert forall k :: 0 <= k < |s| ==> IsDigit(s[k]) && s[k] != c;
  }

  /** `prefix + str(i) + sep + tail` names i: equal names have equal
      indices when sep is not a digit. */
  lemma IndexedNameDetermines(prefix: string, i: nat, j: nat, sep: char, tail: string)
    requires !IsDigit(sep)
    requires prefix + NatToString(i) + [sep] + tail == prefix + NatToString(j) + [sep] + tail
    ensures i == j
  {
    DigitsHaveNo(i, sep);
    DigitsHaveNo(j, sep);
    assert (prefix + NatToString(i) + [sep] + tail)[|prefix|..] == NatToString(i) + [sep] + tail;
    assert (prefix + NatToString(j) + [sep] + tail)[|prefix|..] == NatToString(j) + [sep] + tail;
    SplitAtSeparator(NatToString(i), NatToString(j), tail, tail, sep);
    NatToStringInjective(i, j);
  }

  /** `prefix + str(i)` names i. */
  lemma TrailingIndexDetermines(prefix: string, i: nat, j: nat)
    requires prefix + NatToString(i) == prefix + NatToString(j)
    ensures i == j
  {
    assert (prefix + NatToString(i))[|prefix|..] == NatToString(i);
    assert (prefix + NatToString(j))[|prefix|..] == NatToString(j);
    NatToStringInjective(i, j);
  }
}
