/** The eBay scraper: mock listings only, `limit` per keyword, each with an
    item id built from its index and the keyword. */
module EbayScraperModel {
  import opened Prelude
  import opened Text
  import opened MockCommon

  const EbaySource := "ebay"
  const Conditions := ["New", "Used", "Refurbished", "For parts or not working"]
  const ListingTypes := ["Auction", "Buy It Now", "Classified Ad"]
  const ItemPrefix := "https://ebay.com/itm/"

  datatype Listing = Listing(
    itemId: string, title: string, condition: string, listingType: string, bids: int,
    location: string, url: string)

  /** `f"{i}1234{keyword.replace(' ', '')[:3].upper()}"`. */
  function ItemId(keyword: string, i: nat): string
  {
    NatToString(i) + "1234" + ShortCode(keyword)
  }

  /** The i-th listing of a keyword: its fixed fields, a condition and a
      listing type from the lists, a bid count in 0..30 whatever the listing
      type, and a url built from the same id. */
  predicate ListingOf(keyword: string, i: nat, l: Listing)
  {
    l.itemId == ItemId(keyword, i)
    && l.title == "eBay: " + keyword + " ürün " + NatToString(i)
    && l.condition in Conditions
    && l.listingType in ListingTypes
    && 0 <= l.bids <= 30
    && l.location == "City" + NatToString(i) + ", Country"
    && l.url == ItemPrefix + l.itemId
  }

  /** One iteration of the inner loop. The bid count is guarded by the
      literal "Auction", which is always truthy, so it is drawn for every
      listing type. */
  method DrawListing(keyword: string, i: nat) returns (l: Listing)
    ensures ListingOf(keyword, i, l)
  {
    var condition := Choice(Conditions);
    var listingType := Choice(ListingTypes);
    var bids := 0;
    if Truthy(Some("Auction")) {
      bids := RandInt(0, 30);
    }
    l := Listing(ItemId(keyword, i), "eBay: " + keyword + " ürün " + NatToString(i), condition, listingType,
                 bids, "City" + NatToString(i) + ", Country", ItemPrefix + ItemId(keyword, i));
  }

  /** The inner loop: `for i in range(limit)`. */
  method Listings(keyword: string, limit: int) returns (listings: seq<Listing>)
    ensures |listings| == RangeCount(limit)
    ensures forall i :: 0 <= i < |listings| ==> ListingOf(keyword, i, listings[i])
  {
    listings := [];
    var i := 0;
    while i < limit
      invariant 0 <= i && |listings| == i && (limit >= 0 ==> i <= limit) && (limit < 0 ==> i == 0)
      invariant forall j :: 0 <= j < i ==> ListingOf(keyword, j, listings[j])
    {
      var l := DrawListing(keyword, i);
      listings := listings + [l];
      i := i + 1;
    }
  }

  /** The result of one keyword. */
  predicate ResultOf(keyword: string, limit: int, r: ScrapeResult<Listing>)
  {
    r.keyword == keyword && r.source == EbaySource && r.error.None? && r.data.Some?
    && |r.data.value| == RangeCount(limit)
    && forall i :: 0 <= i < |r.data.value| ==> ListingOf(keyword, i, r.data.value[i])
  }

  /** `scrape`: one result per keyword, in order, never an error. */
  method Scrape(keywords: seq<string>, limit: int) returns (results: seq<ScrapeResult<Listing>>)
    ensures |results| == |keywords|
    ensures forall k :: 0 <= k < |keywords| ==> ResultOf(keywords[k], limit, results[k])
  {
    results := [];
    var k := 0;
    while k < |keywords|
      invariant 0 <= k <= |keywords| && |results| == k
      invariant forall j :: 0 <= j < k ==> ResultOf(keywords[j], limit, results[j])
    {
      var listings := Listings(keywords[k], limit);
      results := results + [ScrapeResult(keywords[k], EbaySource, Some(listings), None)];
      k := k + 1;
    }
  }

  /** Two item ids of one keyword are equal only for the same index: the
      digits "1234" follow the index directly, but equal ids have equal
      lengths and so equal index prefixes. */
  lemma ItemIdDetermines(keyword: string, i: nat, j: nat)
    requires ItemId(keyword, i) == ItemId(keyword, j)
    ensures i == j
  {
    var a, b := NatToString(i), NatToString(j);
    assert |a| == |b|;
    assert a == ItemId(keyword, i)[..|a|];
    assert b == ItemId(keyword, j)[..|b|];
    NatToStringInjective(i, j);
  }

  /** Within one result, listings with the same item id or the same url are
      the same listing. */
  lemma ListingsIdentified(keyword: string, limit: int, r: ScrapeResult<Listing>)
    requires ResultOf(keyword, limit, r)
    ensures forall i, j :: 0 <= i < |r.data.value| && 0 <= j < |r.data.value| && r.data.value[i].itemId == r.data.value[j].itemId ==> i == j
    ensures forall i, j :: 0 <= i < |r.data.value| && 0 <= j < |r.data.value| && r.data.value[i].url == r.data.value[j].url ==> i == j
  {
    var d := r.data.value;
    forall i, j | 0 <= i < |d| && 0 <= j < |d| && d[i].itemId == d[j].itemId ensures i == j {
      assert ListingOf(keyword, i, d[i]) && ListingOf(keyword, j, d[j]);
      ItemIdDetermines(keyword, i, j);
    }
    forall i, j | 0 <= i < |d| && 0 <= j < |d| && d[i].url == d[j].url ensures i == j {
      assert ListingOf(keyword, i, d[i]) && ListingOf(keyword, j, d[j]);
      assert d[i].itemId == d[i].url[|ItemPrefix|..] == d[j].url[|ItemPrefix|..] == d[j].itemId;
      ItemIdDetermines(keyword, i, j);
    }
  }
}
