/** The data-point extraction the Google Trends scraper runs inside the page:
    it matches "date value" pairs in the page's text rows, normalises
    "D Aaa" dates with the Turkish month abbreviations, stores each value
    under its date when the date is one of the 91 days of the table,
    forward-fills the gaps, and falls back to a clamped mock series. The
    series is kept as a list of values aligned with the day table. */
module TrendsExtraction {
  import opened Prelude
  import opened Text

  /** The month abbreviations the page script looks for, January first. */
  const Months: seq<string> := ["Oca", "Şub", "Mar", "Nis", "May", "Haz", "Tem", "Ağu", "Eyl", "Eki", "Kas", "Ara"]

  /** `months.findIndex(m => abbr.startsWith(m))`, searching from index j. */
  function MonthIndexFrom(abbr: string, j: nat): (idx: int)
    requires j <= 12
    ensures idx == -1 || j <= idx < 12
    ensures idx >= 0 ==> Months[idx] <= abbr && forall k :: j <= k < idx ==> !(Months[k] <= abbr)
    ensures idx == -1 ==> forall k :: j <= k < 12 ==> !(Months[k] <= abbr)
    decreases 12 - j
  {
    if j == 12 then -1 else if Months[j] <= abbr then j else MonthIndexFrom(abbr, j + 1)
  }

  function MonthIndex(abbr: string): int
  {
    MonthIndexFrom(abbr, 0)
  }

  predicate AllLetters(s: string)
  {
    forall i :: 0 <= i < |s| ==> IsAsciiLetter(s[i])
  }

  /** The pattern matches only ASCII letters, so "Şub" and "Ağu" are never
      found: no date in February or August is ever produced. */
  lemma AsciiAbbreviationSkipsShubAndAgu(abbr: string)
    requires |abbr| == 3 && AllLetters(abbr)
    ensures MonthIndex(abbr) != 1 && MonthIndex(abbr) != 7
  {
    assert IsAsciiLetter(abbr[0]);
    assert Months[1][0] == 'Ş' && Months[7][1] == 'ğ' && IsAsciiLetter(abbr[1]);
  }

  /** "YYYY-MM-DD": four digits, '-', two digits, '-', two digits. */
  predicate IsoShaped(s: string)
  {
    |s| == 10 && AllDigits(s[..4]) && s[4] == '-' && AllDigits(s[5..7]) && s[7] == '-' && AllDigits(s[8..])
  }

  /** JavaScript's default `sort` order on strings: lexicographic by
      character code. */
  predicate LexLess(a: string, b: string)
  {
    if a == [] then b != []
    else b != [] && (a[0] < b[0] || (a[0] == b[0] && LexLess(a[1..], b[1..])))
  }

  /** The day table: 91 distinct ISO dates in ascending order, so sorting
      its keys leaves it as it is. */
  predicate ValidDayTable(keys: seq<string>)
  {
    |keys| == 91 && (forall i :: 0 <= i < |keys| ==> IsoShaped(keys[i]))
    && (forall i, j :: 0 <= i < j < |keys| ==> keys[i] != keys[j])
    && forall i :: 0 < i < |keys| ==> LexLess(keys[i - 1], keys[i])
  }

  /** Position of date in keys, or -1 (`date in dataPoints`). */
  function IndexOf(keys: seq<string>, date: string): (i: int)
    ensures -1 <= i < |keys|
    ensures i >= 0 ==> keys[i] == date
    ensures i == -1 ==> date !in keys
  {
    if keys == [] then -1
    else if keys[|keys| - 1] == date then |keys| - 1
    else IndexOf(keys[..|keys| - 1], date)
  }

  /** Length of the run of JavaScript whitespace starting at q. */
  function SpaceRun(s: string, q: nat): (k: nat)
    requires q <= |s|
    ensures q + k <= |s|
    ensures forall j :: q <= j < q + k ==> IsJsWhitespace(s[j])
    ensures q + k < |s| ==> !IsJsWhitespace(s[q + k])
    decreases |s| - q
  {
    if q < |s| && IsJsWhitespace(s[q]) then 1 + SpaceRun(s, q + 1) else 0
  }

  /** `\s+(\d{1,3})` at q: after at least one whitespace character, the
      value of the first one to three digits (the quantifiers are greedy and
      whitespace and digits are disjoint, so no other split can match). */
  function ValueAt(s: string, q: nat): (v: Option<nat>)
    requires q <= |s|
    ensures v.Some? ==> v.value <= 999
  {
    var k := SpaceRun(s, q);
    var d := if k == 0 then 0 else DigitRun(s, q + k);
    if d == 0 then None
    else
      var digits := s[q + k..q + k + (if d < 3 then d else 3)];
      assert AllDigits(digits) by {
        forall i | 0 <= i < |digits| ensures IsDigit(digits[i]) {
          assert digits[i] == s[q + k + i];
        }
      }
      DigitsValueBelow(digits);
      assert Pow10(1) == 10 && Pow10(2) == 100 && Pow10(3) == 1000;
      Some(DigitsValue(digits))
  }

  /** A match of `(\d{4}-\d{2}-\d{2}|\d{1,2} [A-Za-z]{3})\s+(\d{1,3})`:
      which alternative matched, its parts, and the value. */
  datatype RowMatch =
    | IsoMatch(date: string, value: nat)
    | DayMonthMatch(day: string, month: string, value: nat)

  predicate WellFormedMatch(m: RowMatch)
  {
    match m
    case IsoMatch(date, value) => IsoShaped(date) && value <= 999
    case DayMonthMatch(day, month, value) =>
      1 <= |day| <= 2 && AllDigits(day) && |month| == 3 && AllLetters(month) && value <= 999
  }

  /** The first alternative at p: `\d{4}-\d{2}-\d{2}`. */
  predicate IsoAt(s: string, p: nat)
  {
    p + 10 <= |s| && IsoShaped(s[p..p + 10])
  }

  /** The second alternative at p with n day digits: `\d{n} [A-Za-z]{3}`. */
  predicate DayMonthAt(s: string, p: nat, n: nat)
  {
    p + n + 4 <= |s| && AllDigits(s[p..p + n]) && s[p + n] == ' ' && AllLetters(s[p + n + 1..p + n + 4])
  }

  /** The match starting at p, trying the alternatives in order and, in the
      second, two day digits before one. */
  function MatchAt(s: string, p: nat): (m: Option<RowMatch>)
    requires p <= |s|
    ensures m.Some? ==> WellFormedMatch(m.value)
  {
    if IsoAt(s, p) && ValueAt(s, p + 10).Some? then Some(IsoMatch(s[p..p + 10], ValueAt(s, p + 10).value))
    else if DayMonthAt(s, p, 2) && ValueAt(s, p + 6).Some? then
      Some(DayMonthMatch(s[p..p + 2], s[p + 3..p + 6], ValueAt(s, p + 6).value))
    else if DayMonthAt(s, p, 1) && ValueAt(s, p + 5).Some? then
      Some(DayMonthMatch(s[p..p + 1], s[p + 2..p + 5], ValueAt(s, p + 5).value))
    else None
  }

  /** `row.match(dateValuePattern)` from position p: the leftmost match. */
  function FirstMatch(s: string, p: nat): (m: Option<RowMatch>)
    requires p <= |s|
    ensures m.Some? ==> WellFormedMatch(m.value)
    decreases |s| - p
  {
    if MatchAt(s, p).Some? then MatchAt(s, p)
    else if p == |s| then None
    else FirstMatch(s, p + 1)
  }

  /** The date string of a match after normalisation: an ISO date is used as
      it is; "D Aaa" with a known month becomes "year-MM-DD" with month and
      day zero-padded, and with an unknown month stays "D Aaa". */
  function Normalize(m: RowMatch, year: nat): string
    requires WellFormedMatch(m)
  {
    match m
    case IsoMatch(date, _) => date
    case DayMonthMatch(day, month, _) =>
      var idx := MonthIndex(month);
      if idx >= 0 then
        NatToString(year) + "-" + ZFill2(NatToString(idx + 1)) + "-" + ZFill2(NatToString(DigitsValue(day)))
      else day + " " + month
  }

  /** Four-digit years print in four digits. */
  lemma FourDigitYear(year: nat)
    requires 1000 <= year <= 9999
    ensures |NatToString(year)| == 4
  {
    assert NatToString(year) == NatToString(year / 10) + [DigitChar(year % 10)];
    assert NatToString(year / 10) == NatToString(year / 100) + [DigitChar(year / 10 % 10)];
    assert NatToString(year / 100) == NatToString(year / 1000) + [DigitChar(year / 100 % 10)];
  }

  /** Joining a four-digit year and two two-digit fields with '-' gives an
      ISO date with those fields. */
  lemma IsoOfParts(y: string, mm: string, dd: string)
    requires |y| == 4 && AllDigits(y) && |mm| == 2 && AllDigits(mm) && |dd| == 2 && AllDigits(dd)
    ensures var d := y + "-" + mm + "-" + dd;
      IsoShaped(d) && d[..4] == y && d[5..7] == mm && d[8..] == dd
  {
    var d := y + "-" + mm + "-" + dd;
    assert d[..4] == y && d[5..7] == mm && d[8..] == dd;
  }

  /** A "D Aaa" date with a known month in a four-digit year becomes an ISO
      date whose month field denotes the month's position plus one and
      whose day field denotes the day. */
  lemma NormalizeDayMonth(day: string, month: string, value: nat, year: nat)
    requires WellFormedMatch(DayMonthMatch(day, month, value))
    requires MonthIndex(month) >= 0 && 1000 <= year <= 9999
    ensures var d := Normalize(DayMonthMatch(day, month, value), year);
      IsoShaped(d) && d[..4] == NatToString(year)
      && DigitsValue(d[5..7]) == MonthIndex(month) + 1 && DigitsValue(d[8..]) == DigitsValue(day)
  {
    var idx := MonthIndex(month);
    FourDigitYear(year);
    ZFill2OfNatToString(idx + 1);
    DigitsValueBelow(day);
    assert Pow10(1) == 10 && Pow10(2) == 100;
    ZFill2OfNatToString(DigitsValue(day));
    IsoOfParts(NatToString(year), ZFill2(NatToString(idx + 1)), ZFill2(NatToString(DigitsValue(day))));
  }

  /** A "D Aaa" date with an unknown month contains a space, so it is never
      one of the table's dates. */
  lemma UnknownMonthNotIso(day: string, month: string, value: nat, year: nat)
    requires WellFormedMatch(DayMonthMatch(day, month, value)) && MonthIndex(month) < 0
    ensures !IsoShaped(Normalize(DayMonthMatch(day, month, value), year))
  {
    assert |day + " " + month| < 10;
  }

  /** The normalised date and the value a row contributes, if it matches. */
  function RowEntry(row: string, year: nat): (e: Option<(string, nat)>)
    ensures e.Some? ==> e.value.1 <= 999
  {
    var m := FirstMatch(row, 0);
    if m.None? then None else Some((Normalize(m.value, year), m.value.value))
  }

  /** One row of the loop: the value is stored only under a date that is
      already a key of the table. */
  function ApplyRow(keys: seq<string>, year: nat, row: string, vals: seq<int>): (r: seq<int>)
    requires |vals| == |keys|
    ensures |r| == |keys|
  {
    var e := RowEntry(row, year);
    if e.Some? && IndexOf(keys, e.value.0) >= 0 then vals[IndexOf(keys, e.value.0) := e.value.1] else vals
  }

  /** All rows in order, later rows overwriting earlier ones. */
  function RowsApplied(keys: seq<string>, year: nat, rows: seq<string>, vals: seq<int>): (r: seq<int>)
    requires |vals| == |keys|
    ensures |r| == |keys|
  {
    if rows == [] then vals
    else ApplyRow(keys, year, rows[|rows| - 1], RowsApplied(keys, year, rows[..|rows| - 1], vals))
  }

  /** A value changes only when some row's date is exactly that key, and
      then it is a matched value (at most 999). */
  lemma {:induction false} RowsAppliedChangesOnlyKeys(keys: seq<string>, year: nat, rows: seq<string>, vals: seq<int>, j: nat)
    requires |vals| == |keys| && j < |keys|
    requires RowsApplied(keys, year, rows, vals)[j] != vals[j]
    ensures exists k :: 0 <= k < |rows| && RowEntry(rows[k], year) == Some((keys[j], RowsApplied(keys, year, rows, vals)[j]))
  {
    var front := rows[..|rows| - 1];
    var before := RowsApplied(keys, year, front, vals);
    var e := RowEntry(rows[|rows| - 1], year);
    if e.Some? && IndexOf(keys, e.value.0) == j {
      assert RowEntry(rows[|rows| - 1], year) == Some((keys[j], RowsApplied(keys, year, rows, vals)[j]));
    } else {
      assert before[j] == RowsApplied(keys, year, rows, vals)[j];
      RowsAppliedChangesOnlyKeys(keys, year, front, vals, j);
      var k :| 0 <= k < |front| && RowEntry(front[k], year) == Some((keys[j], before[j]));
      assert rows[k] == front[k];
    }
  }

  /** The row loop of the page script, updating the values in place. */
  method ApplyRows(keys: seq<string>, year: nat, rows: seq<string>, values: array<int>)
    requires values.Length == |keys|
    modifies values
    ensures values[..] == RowsApplied(keys, year, rows, old(values[..]))
  {
    ghost var init := values[..];
    var n := 0;
    while n < |rows|
      invariant 0 <= n <= |rows|
      invariant values[..] == RowsApplied(keys, year, rows[..n], init)
    {
      assert rows[..n + 1][..n] == rows[..n];
      var e := RowEntry(rows[n], year);
      if e.Some? {
        var i := IndexOf(keys, e.value.0);
        if i >= 0 {
          values[i] := e.value.1;
        }
      }
      n := n + 1;
    }
    assert rows[..n] == rows;
  }

  /** The most recent nonzero value of s, or 0 when there is none. */
  function LastNonzero(s: seq<int>): int
  {
    if s == [] then 0 else if s[|s| - 1] != 0 then s[|s| - 1] else LastNonzero(s[..|s| - 1])
  }

  /** The forward-filled series: every zero takes the most recent nonzero
      value before it, if any. */
  function ForwardFilled(s: seq<int>): (f: seq<int>)
    ensures |f| == |s|
    ensures forall i :: 0 <= i < |s| && s[i] != 0 ==> f[i] == s[i]
  {
    seq(|s|, i requires 0 <= i < |s| => if s[i] != 0 then s[i] else LastNonzero(s[..i]))
  }

  /** The fill loop of the page script over the sorted dates, in place. */
  method ForwardFill(a: array<int>)
    modifies a
    ensures a[..] == ForwardFilled(old(a[..]))
  {
    ghost var s := a[..];
    var prev := 0;
    var i := 0;
    while i < a.Length
      invariant 0 <= i <= a.Length
      invariant prev == LastNonzero(s[..i])
      invariant forall j :: 0 <= j < i ==> a[j] == ForwardFilled(s)[j]
      invariant forall j :: i <= j < a.Length ==> a[j] == s[j]
    {
      assert s[..i + 1][..i] == s[..i];
      if a[i] == 0 && prev != 0 {
        a[i] := prev;
      } else if a[i] != 0 {
        prev := a[i];
      }
      i := i + 1;
    }
  }

  lemma {:induction false} LastNonzeroOfZeros(t: seq<int>)
    requires forall j :: 0 <= j < |t| ==> t[j] == 0
    ensures LastNonzero(t) == 0
  {
    if t != [] {
      LastNonzeroOfZeros(t[..|t| - 1]);
    }
  }

  lemma {:induction false} LastNonzeroZeroMeansZeros(t: seq<int>)
    requires LastNonzero(t) == 0
    ensures forall j :: 0 <= j < |t| ==> t[j] == 0
  {
    if t != [] {
      LastNonzeroZeroMeansZeros(t[..|t| - 1]);
      assert forall j :: 0 <= j < |t| - 1 ==> t[..|t| - 1][j] == t[j];
    }
  }

  /** Leading zeros stay zero. */
  lemma LeadingZerosStay(s: seq<int>, i: nat)
    requires i < |s| && forall j :: 0 <= j <= i ==> s[j] == 0
    ensures ForwardFilled(s)[i] == 0
  {
    LastNonzeroOfZeros(s[..i]);
  }

  lemma {:induction false} LastNonzeroIsMostRecent(t: seq<int>, k: nat)
    requires k < |t| && t[k] != 0 && forall j :: k < j < |t| ==> t[j] == 0
    ensures LastNonzero(t) == t[k]
  {
    if k < |t| - 1 {
      LastNonzeroIsMostRecent(t[..|t| - 1], k);
    }
  }

  /** A zero after a nonzero entry takes the most recent nonzero value. */
  lemma ZeroTakesMostRecent(s: seq<int>, k: nat, i: nat)
    requires k < i < |s| && s[k] != 0 && forall j :: k < j <= i ==> s[j] == 0
    ensures ForwardFilled(s)[i] == s[k]
  {
    LastNonzeroIsMostRecent(s[..i], k);
  }

  /** Filling a filled series changes nothing. */
  lemma ForwardFillIdempotent(s: seq<int>)
    ensures ForwardFilled(ForwardFilled(s)) == ForwardFilled(s)
  {
    var f := ForwardFilled(s);
    forall i | 0 <= i < |s| ensures ForwardFilled(f)[i] == f[i] {
      if f[i] == 0 {
        LastNonzeroZeroMeansZeros(s[..i]);
        forall j | 0 <= j < i ensures f[..i][j] == 0 {
          LeadingZerosStay(s, j);
        }
        LastNonzeroOfZeros(f[..i]);
      }
    }
  }

  predicate AnyPositive(s: seq<int>)
  {
    exists i :: 0 <= i < |s| && s[i] > 0
  }

  lemma {:induction false} LastNonzeroIsEntry(t: seq<int>)
    requires LastNonzero(t) != 0
    ensures exists j :: 0 <= j < |t| && t[j] == LastNonzero(t)
  {
    if t[|t| - 1] == 0 {
      LastNonzeroIsEntry(t[..|t| - 1]);
      var j :| 0 <= j < |t| - 1 && t[..|t| - 1][j] == LastNonzero(t[..|t| - 1]);
      assert t[j] == LastNonzero(t);
    }
  }

  /** Filling copies existing values, so it creates no positive value: the
      "some value > 0" test gives the same answer before and after. */
  lemma FillKeepsAnyPositive(s: seq<int>)
    ensures AnyPositive(ForwardFilled(s)) <==> AnyPositive(s)
  {
    var f := ForwardFilled(s);
    if AnyPositive(f) {
      var i :| 0 <= i < |f| && f[i] > 0;
      if s[i] == 0 {
        LastNonzeroIsEntry(s[..i]);
        var j :| 0 <= j < i && s[..i][j] == f[i];
        assert s[j] > 0;
      }
    }
    if AnyPositive(s) {
      var i :| 0 <= i < |s| && s[i] > 0;
      assert f[i] > 0;
    }
  }

  /** Clamping into 0..100, as the mock and fallback series do. */
  function Clamp(x: int): (c: int)
    ensures 0 <= c <= 100
    ensures 0 <= x <= 100 ==> c == x
  {
    if x < 0 then 0 else if x > 100 then 100 else x
  }

  /** A series of n clamped values, each drawn from an arbitrary raw value
      (the source's curves and noise are floating point). */
  method ClampedSeries(n: nat) returns (values: seq<int>)
    ensures |values| == n
    ensures forall i :: 0 <= i < n ==> 0 <= values[i] <= 100
  {
    values := [];
    while |values| < n
      invariant |values| <= n
      invariant forall i :: 0 <= i < |values| ==> 0 <= values[i] <= 100
    {
      var raw: int :| true;
      values := values + [Clamp(raw)];
    }
  }

  /** What the page shows the script. */
  datatype TrendsPage = TrendsPage(hasChart: bool, rows: seq<string>, scriptRaises: bool)

  /** The page script: null when it raises; the filled series when the page
      has a chart and some value is positive; otherwise a clamped mock
      series over the same days. */
  method ExtractInPage(keys: seq<string>, year: nat, page: TrendsPage) returns (r: Option<seq<int>>)
    ensures r.None? <==> page.scriptRaises
    ensures r.Some? ==> |r.value| == |keys|
    ensures r.Some? && page.hasChart && AnyPositive(RowsApplied(keys, year, page.rows, seq(|keys|, _ => 0)))
      ==> r.value == ForwardFilled(RowsApplied(keys, year, page.rows, seq(|keys|, _ => 0)))
    ensures r.Some? && !(page.hasChart && AnyPositive(RowsApplied(keys, year, page.rows, seq(|keys|, _ => 0))))
      ==> forall i :: 0 <= i < |keys| ==> 0 <= r.value[i] <= 100
  {
    if page.scriptRaises {
      return None;
    }
    if page.hasChart {
      var values := new int[|keys|](_ => 0);
      assert values[..] == seq(|keys|, _ => 0);
      ApplyRows(keys, year, page.rows, values);
      ghost var applied := values[..];
      ForwardFill(values);
      FillKeepsAnyPositive(applied);
      if AnyPositive(values[..]) {
        return Some(values[..]);
      }
    }
    var mock := ClampedSeries(|keys|);
    r := Some(mock);
  }
}
