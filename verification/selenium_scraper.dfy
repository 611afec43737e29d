/** The browser-based scraper of scraper/mytheresa_scraper.py: the category
    table, the unknown-category guard of `scrape_category`, the filter loop
    `_extract_products` and the convenience calls.

    The browser is an oracle: given the category URL and the number of items
    to scroll for, it yields the `<img>` elements found on the page, or
    reports that the initial wait timed out or that some browser call raised.
    Both failures make `scrape_category` return an empty list. The cleanup in
    its `finally` is taken to succeed: a `driver.quit()` that raises would
    replace the result with that exception. */
module SeleniumScraper {
  import opened Options
  import opened Text
  import opened Seqs
  import opened Filters
  import opened ProductExtractor

  const BaseUrl := "https://www.mytheresa.com"

  /** The category keys a scrape may name, and their listing URLs. */
  const Categories: map<string, string> := map[
    "men_clothing" := BaseUrl + "/en-us/men/clothing",
    "women_clothing" := BaseUrl + "/en-us/women/clothing",
    "men_shoes" := BaseUrl + "/en-us/men/shoes"
  ]

  /** The price bound of the Gucci scrape. */
  const MaxPriceGucci: real := 1000.0

  /** What one browser session yields for a listing URL. */
  datatype BrowserRun = Crashed | LoadTimeout | Loaded(images: seq<ImgElement>)

  /** `(url, target_items)` to the outcome of loading, waiting and scrolling. */
  type Browser = (string, int) -> BrowserRun

  /** Both filters of `_extract_products` on one extracted record. */
  function Admits(brandFilter: Option<string>, maxPrice: Option<real>): Extracted -> bool
  {
    (d: Extracted) => BrandAdmits(brandFilter, d.brand) && PriceAdmits(maxPrice, d.price)
  }

  /** The records `_extract_products` should return: the first `limit`
      records that extract successfully and pass both filters, in page order. */
  function Expected(elements: seq<ImgElement>, limit: int,
                    brandFilter: Option<string>, maxPrice: Option<real>): seq<Extracted>
  {
    Take(Filter(Admits(brandFilter, maxPrice), FilterMap(ExtractFromElement, elements)), limit)
  }

  /** `_extract_products`. `examined` is the number of elements handed to the
      extractor before the loop stopped. */
  method ExtractProducts(elements: seq<ImgElement>, limit: int,
                         brandFilter: Option<string>, maxPrice: Option<real>)
    returns (results: seq<Extracted>, examined: nat)
    ensures examined <= |elements|
    ensures results == Filter(Admits(brandFilter, maxPrice), FilterMap(ExtractFromElement, elements[..examined]))
    ensures examined < |elements| ==> |results| >= limit
    ensures examined > 0 ==>
              |Filter(Admits(brandFilter, maxPrice), FilterMap(ExtractFromElement, elements[..examined - 1]))| < limit
    ensures |results| <= Room(limit)
    ensures results == Expected(elements, limit, brandFilter, maxPrice)
  {
    var keep := Admits(brandFilter, maxPrice);
    results := [];
    examined := 0;
    while examined < |elements| && |results| < limit
      invariant examined <= |elements|
      invariant results == Filter(keep, FilterMap(ExtractFromElement, elements[..examined]))
      invariant examined > 0 ==> |Filter(keep, FilterMap(ExtractFromElement, elements[..examined - 1]))| < limit
      invariant |results| <= Room(limit)
      decreases |elements| - examined
    {
      var data := ExtractFromElement(elements[examined]);
      ScanStep(keep, elements, examined);
      if data.Some? && BrandAdmits(brandFilter, data.value.brand) && PriceAdmits(maxPrice, data.value.price) {
        results := results + [data.value];
      }
      examined := examined + 1;
    }
    StoppedScan(keep, elements, examined, limit);
  }

  /** One more element scanned appends its record, if it extracts and passes. */
  lemma ScanStep(keep: Extracted -> bool, elements: seq<ImgElement>, i: nat)
    requires i < |elements|
    ensures var d := ExtractFromElement(elements[i]);
            Filter(keep, FilterMap(ExtractFromElement, elements[..i + 1]))
            == Filter(keep, FilterMap(ExtractFromElement, elements[..i]))
               + (if d.Some? && keep(d.value) then [d.value] else [])
  {
    var d := ExtractFromElement(elements[i]);
    assert elements[..i + 1] == elements[..i] + [elements[i]];
    FilterMapAppend(ExtractFromElement, elements[..i], [elements[i]]);
    assert FilterMap(ExtractFromElement, [elements[i]]) == if d.Some? then [d.value] else [] by {
      assert [elements[i]][1..] == [];
    }
    FilterAppend(keep, FilterMap(ExtractFromElement, elements[..i]), FilterMap(ExtractFromElement, [elements[i]]));
    if d.Some? {
      assert Filter(keep, [d.value]) == if keep(d.value) then [d.value] else [] by {
        assert [d.value][1..] == [];
      }
    }
  }

  /** Stopping at the limit or at the end of the page leaves the first
      `limit` passing records of the whole page. */
  lemma StoppedScan(keep: Extracted -> bool, elements: seq<ImgElement>, examined: nat, limit: int)
    requires examined <= |elements|
    requires var held := Filter(keep, FilterMap(ExtractFromElement, elements[..examined]));
             |held| <= Room(limit) && (examined == |elements| || |held| >= limit)
    ensures Filter(keep, FilterMap(ExtractFromElement, elements[..examined]))
            == Take(Filter(keep, FilterMap(ExtractFromElement, elements)), limit)
  {
    var front := FilterMap(ExtractFromElement, elements[..examined]);
    var back := FilterMap(ExtractFromElement, elements[examined..]);
    assert elements == elements[..examined] + elements[examined..];
    FilterMapAppend(ExtractFromElement, elements[..examined], elements[examined..]);
    FilterAppend(keep, front, back);
    if examined < |elements| {
      TakeAppendFull(Filter(keep, front), Filter(keep, back), limit);
    } else {
      assert elements[examined..] == [];
    }
  }

  /** The records returned keep page order: they are a subsequence of all
      records extracted from the page. */
  lemma ExpectedKeepsOrder(elements: seq<ImgElement>, limit: int,
                           brandFilter: Option<string>, maxPrice: Option<real>)
    ensures IsSubsequence(Expected(elements, limit, brandFilter, maxPrice), FilterMap(ExtractFromElement, elements))
  {
    TakeFilterIsSubsequence(Admits(brandFilter, maxPrice), FilterMap(ExtractFromElement, elements), limit);
  }

  /** Records extracted from `<img>` elements never carry a price, so on this
      path the price filter drops nothing. */
  lemma {:induction false} PriceFilterInert(elements: seq<ImgElement>, brandFilter: Option<string>, maxPrice: Option<real>)
    ensures Filter(Admits(brandFilter, maxPrice), FilterMap(ExtractFromElement, elements))
            == Filter(Admits(brandFilter, None), FilterMap(ExtractFromElement, elements))
    decreases |elements|
  {
    if elements != [] {
      var d := ExtractFromElement(elements[0]);
      var head := if d.Some? then [d.value] else [];
      var rest := FilterMap(ExtractFromElement, elements[1..]);
      assert FilterMap(ExtractFromElement, elements) == head + rest;
      FilterAppend(Admits(brandFilter, maxPrice), head, rest);
      FilterAppend(Admits(brandFilter, None), head, rest);
      PriceFilterInert(elements[1..], brandFilter, maxPrice);
    }
  }

  /** `scrape_category`. `visited` is the URL the browser was pointed at, or
      `None` when no browser component was initialised. */
  method ScrapeCategory(browser: Browser, category: string, limit: int := 100,
                        brandFilter: Option<string> := None, maxPrice: Option<real> := None)
    returns (results: seq<Extracted>, visited: Option<string>)
    ensures category !in Categories ==> results == [] && visited == None
    ensures category in Categories ==> visited == Some(Categories[category])
    ensures |results| <= Room(limit)
    ensures forall i :: 0 <= i < |results| ==>
              BrandAdmits(brandFilter, results[i].brand) && PriceAdmits(maxPrice, results[i].price)
    ensures category in Categories && browser(Categories[category], limit).Loaded? ==>
              results == Expected(browser(Categories[category], limit).images, limit, brandFilter, maxPrice)
    ensures category in Categories && !browser(Categories[category], limit).Loaded? ==> results == []
  {
    if category !in Categories {
      return [], None;
    }
    var url := Categories[category];
    visited := Some(url);
    match browser(url, limit)
    case Loaded(images) =>
      var examined;
      results, examined := ExtractProducts(images, limit, brandFilter, maxPrice);
    case _ =>
      results := [];
  }

  /** `scrape_men_clothing`. */
  method ScrapeMenClothing(browser: Browser, limit: int := 500) returns (results: seq<Extracted>)
    ensures |results| <= Room(limit)
    ensures browser(BaseUrl + "/en-us/men/clothing", limit).Loaded? ==>
              results == Expected(browser(BaseUrl + "/en-us/men/clothing", limit).images, limit, None, None)
    ensures !browser(BaseUrl + "/en-us/men/clothing", limit).Loaded? ==> results == []
  {
    var visited;
    results, visited := ScrapeCategory(browser, "men_clothing", limit);
  }

  /** `scrape_women_clothing`. */
  method ScrapeWomenClothing(browser: Browser, limit: int := 500) returns (results: seq<Extracted>)
    ensures |results| <= Room(limit)
    ensures browser(BaseUrl + "/en-us/women/clothing", limit).Loaded? ==>
              results == Expected(browser(BaseUrl + "/en-us/women/clothing", limit).images, limit, None, None)
    ensures !browser(BaseUrl + "/en-us/women/clothing", limit).Loaded? ==> results == []
  {
    var visited;
    results, visited := ScrapeCategory(browser, "women_clothing", limit);
  }

  /** `scrape_men_shoes`. */
  method ScrapeMenShoes(browser: Browser, limit: int := 100) returns (results: seq<Extracted>)
    ensures |results| <= Room(limit)
    ensures browser(BaseUrl + "/en-us/men/shoes", limit).Loaded? ==>
              results == Expected(browser(BaseUrl + "/en-us/men/shoes", limit).images, limit, None, None)
    ensures !browser(BaseUrl + "/en-us/men/shoes", limit).Loaded? ==> results == []
  {
    var visited;
    results, visited := ScrapeCategory(browser, "men_shoes", limit);
  }

  /** `scrape_gucci_under_1000`: men's clothing, brand "Gucci", maximum price
      1000. Every record's brand contains "gucci" in any letter case. */
  method ScrapeGucciUnder1000(browser: Browser, limit: int := 20) returns (results: seq<Extracted>)
    ensures |results| <= Room(limit)
    ensures forall i :: 0 <= i < |results| ==> Contains(Lower(results[i].brand), "gucci")
    ensures browser(BaseUrl + "/en-us/men/clothing", limit).Loaded? ==>
              results == Expected(browser(BaseUrl + "/en-us/men/clothing", limit).images, limit,
                                   Some("Gucci"), Some(MaxPriceGucci))
    ensures !browser(BaseUrl + "/en-us/men/clothing", limit).Loaded? ==> results == []
  {
    var visited;
    results, visited := ScrapeCategory(browser, "men_clothing", limit, Some("Gucci"), Some(MaxPriceGucci));
    assert Lower("Gucci") == "gucci";
  }

  /** `scrape_elie_saab`: women's clothing, brand "Elie Saab", no price bound.
      Every record's brand contains "elie saab" in any letter case. */
  method ScrapeElieSaab(browser: Browser, limit: int := 50) returns (results: seq<Extracted>)
    ensures |results| <= Room(limit)
    ensures forall i :: 0 <= i < |results| ==> Contains(Lower(results[i].brand), "elie saab")
    ensures browser(BaseUrl + "/en-us/women/clothing", limit).Loaded? ==>
              results == Expected(browser(BaseUrl + "/en-us/women/clothing", limit).images, limit,
                                   Some("Elie Saab"), None)
    ensures !browser(BaseUrl + "/en-us/women/clothing", limit).Loaded? ==> results == []
  {
    var visited;
    results, visited := ScrapeCategory(browser, "women_clothing", limit, Some("Elie Saab"));
    assert Lower("Elie Saab") == "elie saab";
  }
}
