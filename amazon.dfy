/** The Amazon scraper: mock products only, `limit` per keyword, each with an
    ASIN-like code built from its index and the keyword. */
module AmazonScraperModel {
  import opened Prelude
  import opened Text
  import opened MockCommon

  const AmazonSource := "amazon"
  const Categories := ["Electronics", "Books", "Home & Kitchen", "Fashion", "Sports", "Toys", "Health"]
  const Availabilities := ["In Stock", "Limited", "Out of Stock"]
  const ProductPrefix := "https://amazon.com/dp/"

  datatype Product = Product(
    asin: string, title: string, brand: string, reviewCount: int, category: string,
    availability: string, url: string)

  /** `f"B00{i}AB{keyword.replace(' ', '')[:3].upper()}"`. */
  function Asin(keyword: string, i: nat): string
  {
    "B00" + NatToString(i) + "AB" + ShortCode(keyword)
  }

  /** The i-th product of a keyword: its fixed fields, a review count within
      the drawn range, a category and an availability from the lists, and a
      url built from the same code as the asin. */
  predicate ProductOf(keyword: string, i: nat, p: Product)
  {
    p.asin == Asin(keyword, i)
    && p.title == "Amazon: " + keyword + " ürün " + NatToString(i)
    && p.brand == "Brand" + NatToString(i)
    && 0 <= p.reviewCount <= 5000
    && p.category in Categories
    && p.availability in Availabilities
    && p.url == ProductPrefix + p.asin
  }

  /** One iteration of the inner loop. */
  method DrawProduct(keyword: string, i: nat) returns (p: Product)
    ensures ProductOf(keyword, i, p)
  {
    var reviews := RandInt(0, 5000);
    var category := Choice(Categories);
    var availability := Choice(Availabilities);
    p := Product(Asin(keyword, i), "Amazon: " + keyword + " ürün " + NatToString(i), "Brand" + NatToString(i),
                 reviews, category, availability, ProductPrefix + Asin(keyword, i));
  }

  /** The inner loop: `for i in range(limit)`. */
  method Products(keyword: string, limit: int) returns (products: seq<Product>)
    ensures |products| == RangeCount(limit)
    ensures forall i :: 0 <= i < |products| ==> ProductOf(keyword, i, products[i])
  {
    products := [];
    var i := 0;
    while i < limit
      invariant 0 <= i && |products| == i && (limit >= 0 ==> i <= limit) && (limit < 0 ==> i == 0)
      invariant forall j :: 0 <= j < i ==> ProductOf(keyword, j, products[j])
    {
      var p := DrawProduct(keyword, i);
      products := products + [p];
      i := i + 1;
    }
  }

  /** The result of one keyword. */
  predicate ResultOf(keyword: string, limit: int, r: ScrapeResult<Product>)
  {
    r.keyword == keyword && r.source == AmazonSource && r.error.None? && r.data.Some?
    && |r.data.value| == RangeCount(limit)
    && forall i :: 0 <= i < |r.data.value| ==> ProductOf(keyword, i, r.data.value[i])
  }

  /** `scrape`: one result per keyword, in order, never an error. */
  method Scrape(keywords: seq<string>, limit: int) returns (results: seq<ScrapeResult<Product>>)
    ensures |results| == |keywords|
    ensures forall k :: 0 <= k < |keywords| ==> ResultOf(keywords[k], limit, results[k])
  {
    results := [];
    var k := 0;
    while k < |keywords|
      invariant 0 <= k <= |keywords| && |results| == k
      invariant forall j :: 0 <= j < k ==> ResultOf(keywords[j], limit, results[j])
    {
      var products := Products(keywords[k], limit);
      results := results + [ScrapeResult(keywords[k], AmazonSource, Some(products), None)];
      k := k + 1;
    }
  }

  /** Two asins of one keyword are equal only for the same index. */
  lemma AsinDetermines(keyword: string, i: nat, j: nat)
    requires Asin(keyword, i) == Asin(keyword, j)
    ensures i == j
  {
    var tail := "B" + ShortCode(keyword);
    assert Asin(keyword, i) == "B00" + NatToString(i) + ['A'] + tail;
    assert Asin(keyword, j) == "B00" + NatToString(j) + ['A'] + tail;
    IndexedNameDetermines("B00", i, j, 'A', tail);
  }

  /** Within one result, products with the same asin or the same url are the
      same product, and the asin ends with the keyword's upper-case code. */
  lemma ProductsIdentified(keyword: string, limit: int, r: ScrapeResult<Product>)
    requires ResultOf(keyword, limit, r)
    ensures forall i :: 0 <= i < |r.data.value| ==>
      r.data.value[i].asin[|r.data.value[i].asin| - |ShortCode(keyword)|..] == ShortCode(keyword)
    ensures forall i, j :: 0 <= i < |r.data.value| && 0 <= j < |r.data.value| && r.data.value[i].url == r.data.value[j].url ==> i == j
  {
    var d := r.data.value;
    forall i | 0 <= i < |d| ensures d[i].asin[|d[i].asin| - |ShortCode(keyword)|..] == ShortCode(keyword) {
      assert ProductOf(keyword, i, d[i]);
    }
    forall i, j | 0 <= i < |d| && 0 <= j < |d| && d[i].url == d[j].url ensures i == j {
      assert ProductOf(keyword, i, d[i]) && ProductOf(keyword, j, d[j]);
      assert d[i].asin == d[i].url[|ProductPrefix|..] == d[j].url[|ProductPrefix|..] == d[j].asin;
      AsinDetermines(keyword, i, j);
    }
  }
}
