/** The Pinterest scraper: mock pins only, `limit` per keyword, with a drawn
    category and drawn counts. */
module PinterestScraperModel {
  import opened Prelude
  import opened Text
  import opened MockCommon

  const PinterestSource := "pinterest"
  const ImageCategories := ["fashion", "home", "food", "travel", "art", "design", "photography"]

  datatype Pin = Pin(
    id: string, title: string, description: string, category: string,
    saveCount: int, commentCount: int, linkClicks: int, createdAt: string, url: string)

  function PinId(keyword: string, i: nat): string
  {
    "pin_" + NatToString(i) + "_" + Underscored(keyword)
  }

  function PinUrl(i: nat): string
  {
    "https://pinterest.com/pin/" + NatToString(i)
  }

  /** The i-th pin of a keyword: its fixed fields, a category from the list
      and counts within the drawn ranges. */
  predicate PinOf(keyword: string, i: nat, p: Pin)
  {
    p.id == PinId(keyword, i)
    && p.title == "Pinterest: " + keyword + " fikirler " + NatToString(i)
    && p.description == "Harika " + keyword + " fikirleri ve önerileri #" + NatToString(i)
    && p.category in ImageCategories
    && 100 <= p.saveCount <= 10000 && 0 <= p.commentCount <= 500 && 10 <= p.linkClicks <= 5000
    && p.createdAt == PaddedStamp(i)
    && p.url == PinUrl(i)
  }

  /** One iteration of the inner loop. */
  method DrawPin(keyword: string, i: nat) returns (p: Pin)
    ensures PinOf(keyword, i, p)
  {
    var category := Choice(ImageCategories);
    var saves := RandInt(100, 10000);
    var comments := RandInt(0, 500);
    var clicks := RandInt(10, 5000);
    p := Pin(PinId(keyword, i), "Pinterest: " + keyword + " fikirler " + NatToString(i),
             "Harika " + keyword + " fikirleri ve önerileri #" + NatToString(i), category,
             saves, comments, clicks, PaddedStamp(i), PinUrl(i));
  }

  /** The inner loop: `for i in range(limit)`. */
  method Pins(keyword: string, limit: int) returns (pins: seq<Pin>)
    ensures |pins| == RangeCount(limit)
    ensures forall i :: 0 <= i < |pins| ==> PinOf(keyword, i, pins[i])
  {
    pins := [];
    var i := 0;
    while i < limit
      invariant 0 <= i && |pins| == i && (limit >= 0 ==> i <= limit) && (limit < 0 ==> i == 0)
      invariant forall j :: 0 <= j < i ==> PinOf(keyword, j, pins[j])
    {
      var p := DrawPin(keyword, i);
      pins := pins + [p];
      i := i + 1;
    }
  }

  /** The result of one keyword. */
  predicate ResultOf(keyword: string, limit: int, r: ScrapeResult<Pin>)
  {
    r.keyword == keyword && r.source == PinterestSource && r.error.None? && r.data.Some?
    && |r.data.value| == RangeCount(limit)
    && forall i :: 0 <= i < |r.data.value| ==> PinOf(keyword, i, r.data.value[i])
  }

  /** `scrape`: one result per keyword, in order, never an error. */
  method Scrape(keywords: seq<string>, limit: int) returns (results: seq<ScrapeResult<Pin>>)
    ensures |results| == |keywords|
    ensures forall k :: 0 <= k < |keywords| ==> ResultOf(keywords[k], limit, results[k])
  {
    results := [];
    var k := 0;
    while k < |keywords|
      invariant 0 <= k <= |keywords| && |results| == k
      invariant forall j :: 0 <= j < k ==> ResultOf(keywords[j], limit, results[j])
    {
      var pins := Pins(keywords[k], limit);
      results := results + [ScrapeResult(keywords[k], PinterestSource, Some(pins), None)];
      k := k + 1;
    }
  }

  /** Within one result, pins with the same id or the same url are the same
      pin. */
  lemma PinsIdentified(keyword: string, limit: int, r: ScrapeResult<Pin>)
    requires ResultOf(keyword, limit, r)
    ensures forall i, j :: 0 <= i < |r.data.value| && 0 <= j < |r.data.value| && r.data.value[i].id == r.data.value[j].id ==> i == j
    ensures forall i, j :: 0 <= i < |r.data.value| && 0 <= j < |r.data.value| && r.data.value[i].url == r.data.value[j].url ==> i == j
  {
    var d := r.data.value;
    forall i, j | 0 <= i < |d| && 0 <= j < |d| && d[i].id == d[j].id ensures i == j {
      assert PinOf(keyword, i, d[i]) && PinOf(keyword, j, d[j]);
      IndexedNameDetermines("pin_", i, j, '_', Underscored(keyword));
    }
    forall i, j | 0 <= i < |d| && 0 <= j < |d| && d[i].url == d[j].url ensures i == j {
      assert PinOf(keyword, i, d[i]) && PinOf(keyword, j, d[j]);
      TrailingIndexDetermines("https://pinterest.com/pin/", i, j);
    }
  }

  /** For the first 99 pins, `created_at` carries the day i + 1 as two
      digits. */
  lemma CreatedDay(keyword: string, i: nat, p: Pin)
    requires PinOf(keyword, i, p) && i < 99
    ensures |p.createdAt| == 20 && AllDigits(p.createdAt[8..10]) && DigitsValue(p.createdAt[8..10]) == i + 1
  {
    PaddedStampDay(i);
  }
}
