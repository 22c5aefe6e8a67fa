/** The Otto scraper: mock products only, `limit` per keyword, with a
    product id and a url built from the dashed keyword and the index. */
module OttoScraperModel {
  import opened Prelude
  import opened Text
  import opened MockCommon

  const OttoSource := "otto"
  const Categories := ["Möbel", "Elektronik", "Mode", "Spielzeug", "Sport", "Garten", "Haushalt"]

  datatype Product = Product(
    productId: string, title: string, brand: string, onSale: bool, reviewCount: int, category: string,
    deliveryTime: string, url: string)

  function ProductId(keyword: string, i: nat): string
  {
    "otto-" + NatToString(i) + "-" + Dashed(keyword)
  }

  function ProductUrl(keyword: string, i: nat): string
  {
    "https://otto.de/p/" + Dashed(keyword) + "-" + NatToString(i)
  }

  /** The i-th product of a keyword: its fixed fields, a review count in
      0..1000, a category from the list, and a delivery time of one to ten
      working days. */
  predicate ProductOf(keyword: string, i: nat, p: Product)
  {
    p.productId == ProductId(keyword, i)
    && p.title == "Otto: " + keyword + " ürün " + NatToString(i)
    && p.brand == "Marke" + NatToString(i)
    && 0 <= p.reviewCount <= 1000
    && p.category in Categories
    && (exists days :: 1 <= days <= 10 && p.deliveryTime == NatToString(days) + " Werktage")
    && p.url == ProductUrl(keyword, i)
  }

  /** One iteration of the inner loop; `onSale` is the coin that decides
      whether a sale price is set. */
  method DrawProduct(keyword: string, i: nat) returns (p: Product)
    ensures ProductOf(keyword, i, p)
  {
    var onSale := Choice([true, false]);
    var reviews := RandInt(0, 1000);
    var category := Choice(Categories);
    var days := RandInt(1, 10);
    p := Product(ProductId(keyword, i), "Otto: " + keyword + " ürün " + NatToString(i), "Marke" + NatToString(i),
                 onSale, reviews, category, NatToString(days) + " Werktage", ProductUrl(keyword, i));
  }

  /** The inner loop: `for i in range(limit)`. */
  method Products(keyword: string, limit: int) returns (products: seq<Product>)
    ensures |products| == RangeCount(limit)
    ensures forall i :: 0 <= i < |products| ==> ProductOf(keyword, i, products[i])
  {
    products := [];
    var i := 0;
    while i < limit
      invariant 0 <= i && |products| == i && (limit >= 0 ==> i <= limit) && (limit < 0 ==> i == 0)
      invariant forall j :: 0 <= j < i ==> ProductOf(keyword, j, products[j])
    {
      var p := DrawProduct(keyword, i);
      products := products + [p];
      i := i + 1;
    }
  }

  /** The result of one keyword. */
  predicate ResultOf(keyword: string, limit: int, r: ScrapeResult<Product>)
  {
    r.keyword == keyword && r.source == OttoSource && r.error.None? && r.data.Some?
    && |r.data.value| == RangeCount(limit)
    && forall i :: 0 <= i < |r.data.value| ==> ProductOf(keyword, i, r.data.value[i])
  }

  /** `scrape`: one result per keyword, in order, never an error. */
  method Scrape(keywords: seq<string>, limit: int) returns (results: seq<ScrapeResult<Product>>)
    ensures |results| == |keywords|
    ensures forall k :: 0 <= k < |keywords| ==> ResultOf(keywords[k], limit, results[k])
  {
    results := [];
    var k := 0;
    while k < |keywords|
      invariant 0 <= k <= |keywords| && |results| == k
      invariant forall j :: 0 <= j < k ==> ResultOf(keywords[j], limit, results[j])
    {
      var products := Products(keywords[k], limit);
      results := results + [ScrapeResult(keywords[k], OttoSource, Some(products), None)];
      k := k + 1;
    }
  }

  /** Within one result, products with the same id or the same url are the
      same product. */
  lemma ProductsIdentified(keyword: string, limit: int, r: ScrapeResult<Product>)
    requires ResultOf(keyword, limit, r)
    ensures forall i, j :: 0 <= i < |r.data.value| && 0 <= j < |r.data.value| && r.data.value[i].productId == r.data.value[j].productId ==> i == j
    ensures forall i, j :: 0 <= i < |r.data.value| && 0 <= j < |r.data.value| && r.data.value[i].url == r.data.value[j].url ==> i == j
  {
    var d := r.data.value;
    forall i, j | 0 <= i < |d| && 0 <= j < |d| && d[i].productId == d[j].productId ensures i == j {
      assert ProductOf(keyword, i, d[i]) && ProductOf(keyword, j, d[j]);
      IndexedNameDetermines("otto-", i, j, '-', Dashed(keyword));
    }
    forall i, j | 0 <= i < |d| && 0 <= j < |d| && d[i].url == d[j].url ensures i == j {
      assert ProductOf(keyword, i, d[i]) && ProductOf(keyword, j, d[j]);
      TrailingIndexDetermines("https://otto.de/p/" + Dashed(keyword) + "-", i, j);
    }
  }
}
