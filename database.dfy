/** `Database.get_trends`: the SELECT statement and its parameter list grow
    together, one filter clause and one parameter at a time. Running the
    statement and decoding the rows are not modelled. */
module DatabaseModel {
  import opened Prelude
  import opened Text

  const SelectColumns := "SELECT keyword, source, data, timestamp"
  const FromTrends := " FROM keyword_trends WHERE 1=1"
  const SelectAll := SelectColumns + FromTrends
  const Placeholder := "?"
  const NicheClause := " AND niche = " + Placeholder
  const KeywordClause := " AND keyword LIKE " + Placeholder
  const DaysBefore := " AND timestamp >= datetime('now', '-' || "
  const DaysAfter := " || ' days')"
  const DaysClause := DaysBefore + Placeholder + DaysAfter
  const OrderClause := " ORDER BY timestamp DESC"

  /** A bound parameter: the filters bind strings, the day count an
      integer. */
  datatype Param = Text(s: string) | Number(n: int)

  /** One filter clause and the parameter bound to its placeholder. */
  datatype Filter = Filter(sql: string, param: Param)

  function NicheFilters(niche: Option<string>): seq<Filter>
  {
    if Truthy(niche) then [Filter(NicheClause, Text(niche.value))] else []
  }

  function KeywordFilters(keyword: Option<string>): seq<Filter>
  {
    if Truthy(keyword) then [Filter(KeywordClause, Text("%" + keyword.value + "%"))] else []
  }

  /** The filters `get_trends` adds, in order: the niche when truthy, the
      keyword pattern when truthy, and always the day window. */
  function Filters(niche: Option<string>, keyword: Option<string>, days: int): seq<Filter>
  {
    NicheFilters(niche) + KeywordFilters(keyword) + [Filter(DaysClause, Number(days))]
  }

  function SqlOf(fs: seq<Filter>): string
  {
    if fs == [] then [] else fs[0].sql + SqlOf(fs[1..])
  }

  function ParamsOf(fs: seq<Filter>): (ps: seq<Param>)
    ensures |ps| == |fs| && forall i :: 0 <= i < |fs| ==> ps[i] == fs[i].param
  {
    seq(|fs|, i requires 0 <= i < |fs| => fs[i].param)
  }

  /** The statement for a list of filters. */
  function Query(fs: seq<Filter>): string
  {
    SelectAll + SqlOf(fs) + OrderClause
  }

  lemma {:induction false} SqlOfAppend(fs: seq<Filter>, gs: seq<Filter>)
    ensures SqlOf(fs + gs) == SqlOf(fs) + SqlOf(gs)
    decreases |fs|
  {
    if fs == [] {
      assert fs + gs == gs;
    } else {
      assert (fs + gs)[1..] == fs[1..] + gs;
      SqlOfAppend(fs[1..], gs);
    }
  }

  lemma SqlOfSingle(f: Filter)
    ensures SqlOf([f]) == f.sql
  {
    assert [f][1..] == [];
  }

  /** One `query += clause` and `params.append(param)` step. */
  method AddFilter(query: string, params: seq<Param>, ghost added: seq<Filter>, f: Filter)
    returns (query': string, params': seq<Param>)
    requires query == SelectAll + SqlOf(added) && params == ParamsOf(added)
    ensures query' == SelectAll + SqlOf(added + [f]) && params' == ParamsOf(added + [f])
  {
    SqlOfAppend(added, [f]);
    SqlOfSingle(f);
    query' := query + f.sql;
    params' := params + [f.param];
  }

  /** `get_trends`' construction of `query` and `params`. */
  method GetTrends(niche: Option<string>, keyword: Option<string>, days: int) returns (query: string, params: seq<Param>)
    ensures query == Query(Filters(niche, keyword, days))
    ensures params == ParamsOf(Filters(niche, keyword, days))
  {
    ghost var added: seq<Filter> := [];
    query := SelectAll;
    params := [];
    assert SqlOf(added) == [];
    if Truthy(niche) {
      query, params := AddFilter(query, params, added, Filter(NicheClause, Text(niche.value)));
      added := added + [Filter(NicheClause, Text(niche.value))];
    }
    assert added == NicheFilters(niche);
    if Truthy(keyword) {
      query, params := AddFilter(query, params, added, Filter(KeywordClause, Text("%" + keyword.value + "%")));
      added := added + [Filter(KeywordClause, Text("%" + keyword.value + "%"))];
    }
    assert added == NicheFilters(niche) + KeywordFilters(keyword);
    query, params := AddFilter(query, params, added, Filter(DaysClause, Number(days)));
    added := added + [Filter(DaysClause, Number(days))];
    query := query + OrderClause;
  }

  function CountChar(s: string, c: char): nat
  {
    if s == [] then 0 else (if s[0] == c then 1 else 0) + CountChar(s[1..], c)
  }

  lemma {:induction false} CountCharAppend(a: string, b: string, c: char)
    ensures CountChar(a + b, c) == CountChar(a, c) + CountChar(b, c)
    decreases |a|
  {
    if a == [] {
      assert a + b == b;
    } else {
      assert (a + b)[1..] == a[1..] + b;
      CountCharAppend(a[1..], b, c);
    }
  }

  lemma {:induction false} CountCharAbsent(s: string, c: char)
    requires c !in s
    ensures CountChar(s, c) == 0
    decreases |s|
  {
    if s != [] {
      assert s[0] != c;
      assert forall x :: x in s[1..] ==> x in s;
      CountCharAbsent(s[1..], c);
    }
  }

  /** `before + "?" + after`, with no other '?', has one placeholder. */
  lemma OnePlaceholder(before: string, after: string)
    requires '?' !in before && '?' !in after
    ensures CountChar(before + Placeholder + after, '?') == 1
  {
    CountCharAbsent(before, '?');
    CountCharAbsent(after, '?');
    CountCharAppend(before, Placeholder, '?');
    CountCharAppend(before + Placeholder, after, '?');
    assert Placeholder[1..] == [];
  }

  lemma SelectHasNoPlaceholder()
    ensures CountChar(SelectAll, '?') == 0
  {
    assert '?' !in SelectColumns && '?' !in FromTrends;
    CountCharAbsent(SelectAll, '?');
  }

  lemma OrderHasNoPlaceholder()
    ensures CountChar(OrderClause, '?') == 0
  {
    CountCharAbsent(OrderClause, '?');
  }

  lemma NicheHasOnePlaceholder()
    ensures CountChar(NicheClause, '?') == 1
  {
    OnePlaceholder(" AND niche = ", "");
    assert NicheClause == " AND niche = " + Placeholder + "";
  }

  lemma KeywordHasOnePlaceholder()
    ensures CountChar(KeywordClause, '?') == 1
  {
    OnePlaceholder(" AND keyword LIKE ", "");
    assert KeywordClause == " AND keyword LIKE " + Placeholder + "";
  }

  lemma DaysHasOnePlaceholder()
    ensures CountChar(DaysClause, '?') == 1
  {
    OnePlaceholder(DaysBefore, DaysAfter);
  }

  /** Each filter clause carries exactly one placeholder. */
  predicate OnePlaceholderEach(fs: seq<Filter>)
  {
    forall i :: 0 <= i < |fs| ==> CountChar(fs[i].sql, '?') == 1
  }

  /** Filters with one placeholder each give as many placeholders as
      filters. */
  lemma {:induction false} PlaceholdersOfFilters(fs: seq<Filter>)
    requires OnePlaceholderEach(fs)
    ensures CountChar(SqlOf(fs), '?') == |fs|
    decreases |fs|
  {
    if fs != [] {
      assert OnePlaceholderEach(fs[1..]);
      PlaceholdersOfFilters(fs[1..]);
      CountCharAppend(fs[0].sql, SqlOf(fs[1..]), '?');
    }
  }

  lemma FiltersHaveOnePlaceholderEach(niche: Option<string>, keyword: Option<string>, days: int)
    ensures OnePlaceholderEach(Filters(niche, keyword, days))
  {
    NicheHasOnePlaceholder();
    KeywordHasOnePlaceholder();
    DaysHasOnePlaceholder();
  }

  /** With one placeholder per clause, the placeholder of filter i is
      preceded by exactly i others. */
  lemma PlaceholderOrder(head: string, fs: seq<Filter>)
    requires CountChar(head, '?') == 0 && OnePlaceholderEach(fs)
    ensures forall i :: 0 <= i < |fs| ==> CountChar(head + SqlOf(fs[..i]), '?') == i
  {
    forall i | 0 <= i < |fs| ensures CountChar(head + SqlOf(fs[..i]), '?') == i {
      assert OnePlaceholderEach(fs[..i]);
      PlaceholdersOfFilters(fs[..i]);
      CountCharAppend(head, SqlOf(fs[..i]), '?');
    }
  }

  /** The statement has exactly one placeholder per bound parameter, and the
      placeholder of filter i is preceded by exactly i others, so it is the
      one that binds parameter i. */
  lemma PlaceholdersMatchParams(niche: Option<string>, keyword: Option<string>, days: int)
    ensures var fs := Filters(niche, keyword, days);
      CountChar(Query(fs), '?') == |ParamsOf(fs)|
      && forall i :: 0 <= i < |fs| ==> CountChar(SelectAll + SqlOf(fs[..i]), '?') == i && CountChar(fs[i].sql, '?') == 1
  {
    var fs := Filters(niche, keyword, days);
    SelectHasNoPlaceholder();
    OrderHasNoPlaceholder();
    FiltersHaveOnePlaceholderEach(niche, keyword, days);
    PlaceholdersOfFilters(fs);
    CountCharAppend(SelectAll, SqlOf(fs), '?');
    CountCharAppend(SelectAll + SqlOf(fs), OrderClause, '?');
    PlaceholderOrder(SelectAll, fs);
  }

  /** The niche filter is present, first and bound to the niche exactly when
      the niche is truthy; the keyword filter is present and bound to
      "%keyword%" exactly when the keyword is truthy; the day window is always
      last and binds `days`. */
  lemma FiltersFollowArguments(niche: Option<string>, keyword: Option<string>, days: int)
    ensures var fs := Filters(niche, keyword, days);
      |fs| == (if Truthy(niche) then 1 else 0) + (if Truthy(keyword) then 1 else 0) + 1
      && fs[|fs| - 1] == Filter(DaysClause, Number(days))
      && (Truthy(niche) <==> exists i :: 0 <= i < |fs| && fs[i].sql == NicheClause)
      && (Truthy(niche) ==> fs[0] == Filter(NicheClause, Text(niche.value)))
      && (Truthy(keyword) <==> exists i :: 0 <= i < |fs| && fs[i].sql == KeywordClause)
      && (Truthy(keyword) ==> fs[|fs| - 2] == Filter(KeywordClause, Text("%" + keyword.value + "%")))
  {
    var fs := Filters(niche, keyword, days);
    assert |NicheClause| == 14 && |KeywordClause| == 19 && |DaysClause| > 19;
    if Truthy(niche) {
      assert fs[0].sql == NicheClause;
    }
    if Truthy(keyword) {
      assert fs[|fs| - 2].sql == KeywordClause;
    }
  }

  /** The statement begins with the fixed SELECT and ends with the ordering,
      and its length tells which of the two optional filters it carries. */
  lemma QueryShape(niche: Option<string>, keyword: Option<string>, days: int)
    ensures var q := Query(Filters(niche, keyword, days));
      q[..|SelectAll|] == SelectAll && q[|q| - |OrderClause|..] == OrderClause
      && |q| == |SelectAll| + (if Truthy(niche) then 14 else 0) + (if Truthy(keyword) then 19 else 0) + |DaysClause| + |OrderClause|
  {
    var fs := Filters(niche, keyword, days);
    SqlOfAppend(NicheFilters(niche), KeywordFilters(keyword));
    SqlOfAppend(NicheFilters(niche) + KeywordFilters(keyword), [Filter(DaysClause, Number(days))]);
    SqlOfSingle(Filter(DaysClause, Number(days)));
    if Truthy(niche) {
      SqlOfSingle(Filter(NicheClause, Text(niche.value)));
    }
    if Truthy(keyword) {
      SqlOfSingle(Filter(KeywordClause, Text("%" + keyword.value + "%")));
    }
  }

  /** Two calls give the same statement only when they agree on which
      filters are on. */
  lemma QueryDeterminesFilters(n1: Option<string>, k1: Option<string>, d1: int, n2: Option<string>, k2: Option<string>, d2: int)
    requires Query(Filters(n1, k1, d1)) == Query(Filters(n2, k2, d2))
    ensures Truthy(n1) == Truthy(n2) && Truthy(k1) == Truthy(k2)
  {
    QueryShape(n1, k1, d1);
    QueryShape(n2, k2, d2);
  }
}
