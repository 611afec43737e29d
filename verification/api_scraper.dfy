/** The GraphQL scraper of scraper/mytheresa_api_scraper.py: section
    detection, response parsing, page fetching and the pagination loop of
    `scrape_category` with its brand, price and count limits.

    The HTTP client is an oracle: a function from the request to the decoded
    response, `None` standing for a non-200 status, a non-empty GraphQL
    `errors` list or any exception. The loop ends only when a page comes back
    short or the limit is reached, so termination is stated as a
    precondition: some page `lastPage` at or after the first is short. */
module ApiScraper {
  import opened Options
  import opened Values
  import opened Text
  import opened Seqs
  import opened Models
  import opened GraphqlQueries
  import opened Filters

  /** Items requested per page; a shorter page ends the scrape. */
  const PageSize := 60

  /** `data.xProductListingPage.products` of a response; a missing key is `None`. */
  datatype ListingPage = ListingPage(products: Option<seq<RawItem>>)
  datatype ListingData = ListingData(xProductListingPage: Option<ListingPage>)
  datatype Envelope = Envelope(data: Option<ListingData>)

  /** What `execute_query` is called with: the listing query's variables and
      the section sent as a routing header. */
  datatype Request = Request(variables: Dict, section: string)

  type Client = Request -> Option<Envelope>

  /** The request `_fetch_page` issues for one page. */
  function ListingRequest(slug: string, page: int, section: string): Request
  {
    Request(BuildListingVariables(slug, page, PageSize), section)
  }

  // ---------------------------------------------------------------- sections

  /** `_detect_section`. */
  function DetectSection(slug: string): (r: string)
    ensures r == "men" || r == "women"
  {
    if Contains(slug, "/men/") || StartsWith(slug, "/men") then "men"
    else if Contains(slug, "/women/") || StartsWith(slug, "/women") then "women"
    else "men"
  }

  /** A slug is classified as women's exactly when it has a women's marker
      and no men's marker; men's is the default. */
  lemma DetectSectionCases(slug: string)
    ensures DetectSection(slug) == "women" <==>
              !(Contains(slug, "/men/") || StartsWith(slug, "/men"))
              && (Contains(slug, "/women/") || StartsWith(slug, "/women"))
    ensures DetectSection(slug) == "men" <==> DetectSection(slug) != "women"
  {
  }

  /** Every slug under `/men` is men's, and so is every slug with a `/men/`
      segment, even under `/women`. */
  lemma MenPrefixWins(rest: string, before: string, after: string)
    ensures DetectSection("/men" + rest) == "men"
    ensures DetectSection(before + "/men/" + after) == "men"
  {
    assert StartsWith("/men" + rest, "/men") by {
      assert ("/men" + rest)[..4] == "/men";
    }
    ContainsSelf("/men/");
    ContainsInfix(before, "/men/", after, "/men/");
  }

  /** `/women/...` without a men's marker is women's. */
  lemma WomenPrefix(rest: string)
    requires !Contains("/women" + rest, "/men/")
    ensures DetectSection("/women" + rest) == "women"
  {
    var s := "/women" + rest;
    assert s[..6] == "/women";
    assert !StartsWith(s, "/men") by {
      assert s[1] == 'w';
    }
  }

  /** The section `scrape_category` uses: the given one, else the detected one. */
  function SectionFor(slug: string, section: Option<string>): (r: string)
    ensures section.Some? ==> r == section.value
    ensures section.None? ==> r == DetectSection(slug) && (r == "men" || r == "women")
  {
    match section
    case Some(s) => s
    case None => DetectSection(slug)
  }

  // ----------------------------------------------------------------- parsing

  /** Whether every key along `data.xProductListingPage.products` is present. */
  predicate HasProductList(env: Envelope)
  {
    env.data.Some? && env.data.value.xProductListingPage.Some?
    && env.data.value.xProductListingPage.value.products.Some?
  }

  /** `data.get('data', {}).get('xProductListingPage', {}).get('products', [])`. */
  function RawProducts(env: Envelope): (items: seq<RawItem>)
    ensures HasProductList(env) ==> Some(items) == env.data.value.xProductListingPage.value.products
    ensures !HasProductList(env) ==> items == []
  {
    match env.data
    case None => []
    case Some(d) =>
      match d.xProductListingPage
      case None => []
      case Some(p) => p.products.GetOr([])
  }

  /** `_parse_products`: the raw items mapped by `from_api_response`, in order,
      dropping those that map to `None`. */
  function ParseProducts(env: Envelope): (r: seq<Product>)
    ensures |r| + |Filter(x => !HasMainImage(x), RawProducts(env))| == |RawProducts(env)|
    ensures forall i :: 0 <= i < |r| ==> r[i].imageUrl != ""
  {
    var r := FilterMap(FromApiResponse, RawProducts(env));
    FilterMapLength(FromApiResponse, x => !HasMainImage(x), RawProducts(env));
    assert forall i :: 0 <= i < |r| ==> r[i].imageUrl != "" by {
      var idx := FilterMapIndices(FromApiResponse, RawProducts(env));
    }
    r
  }

  /** Parsing keeps raw items in order and drops exactly the ones without a
      main image: there are increasing positions `idx` of the raw list, which
      include every item with a main image, whose products are the result. */
  lemma ParseProductsKeepsExactlyImaged(env: Envelope) returns (idx: seq<nat>)
    ensures FilterMapWitness(FromApiResponse, RawProducts(env), ParseProducts(env), idx)
    ensures forall j :: 0 <= j < |idx| ==> HasMainImage(RawProducts(env)[idx[j]])
    ensures forall i :: 0 <= i < |RawProducts(env)| && HasMainImage(RawProducts(env)[i]) ==> i in idx
  {
    idx := FilterMapIndices(FromApiResponse, RawProducts(env));
  }

  /** A response missing any key along the path parses to no products. */
  lemma MissingPathParsesEmpty(env: Envelope)
    requires || env.data.None?
             || env.data.value.xProductListingPage.None?
             || env.data.value.xProductListingPage.value.products.None?
    ensures ParseProducts(env) == []
  {
  }

  /** `_fetch_page`: the parsed products of the response for `page`, or none
      when the query failed. */
  function FetchPage(client: Client, slug: string, page: int, section: string): (r: seq<Product>)
    ensures client(ListingRequest(slug, page, section)).None? ==> r == []
    ensures client(ListingRequest(slug, page, section)).Some? ==>
              r == ParseProducts(client(ListingRequest(slug, page, section)).value)
    ensures forall i :: 0 <= i < |r| ==> r[i].imageUrl != ""
  {
    match client(ListingRequest(slug, page, section))
    case None => []
    case Some(env) => ParseProducts(env)
  }

  // ------------------------------------------------------------- pagination

  /** Both filters of `scrape_category`. */
  predicate Keeps(brandFilter: Option<string>, maxPrice: Option<real>, p: Product)
  {
    BrandAdmits(brandFilter, p.brand) && PriceAdmits(maxPrice, p.price)
  }

  function Selector(brandFilter: Option<string>, maxPrice: Option<real>): Product -> bool
  {
    p => Keeps(brandFilter, maxPrice, p)
  }

  /** The inner `for` loop over one page: append each product that passes the
      filters (`keep`), stopping as soon as `limit` products are held. */
  function AdmitPage(acc: seq<Product>, items: seq<Product>, limit: int, keep: Product -> bool): (r: seq<Product>)
    ensures acc <= r
    ensures |acc| >= limit ==> r == acc
    ensures |acc| < limit ==> |r| <= limit
    ensures forall i :: |acc| <= i < |r| ==> keep(r[i]) && r[i] in items
    decreases |items|
  {
    if items == [] || |acc| >= limit then acc
    else
      var acc' := if keep(items[0]) then acc + [items[0]] else acc;
      AdmitPage(acc', items[1..], limit, keep)
  }

  /** The result of the pagination loop: the products accumulated and how
      many pages were requested, consecutively from the first one. */
  datatype Run = Run(products: seq<Product>, pageCount: nat)

  /** The `while` loop of `scrape_category` from page `page` on, holding
      `acc`; `fetch(p)` is the parsed content of page `p`. */
  function Paginate(fetch: int -> seq<Product>, keep: Product -> bool, limit: int,
                    page: int, acc: seq<Product>, ghost lastPage: int): (r: Run)
    requires page <= lastPage
    requires |fetch(lastPage)| < PageSize
    ensures acc <= r.products
    ensures |acc| >= limit ==> r == Run(acc, 0)
    ensures |acc| < limit ==> |r.products| <= limit && r.pageCount >= 1
    ensures forall i :: |acc| <= i < |r.products| ==> keep(r.products[i])
    ensures r.pageCount <= lastPage - page + 1
    decreases lastPage - page
  {
    if |acc| >= limit then Run(acc, 0)
    else
      var products := fetch(page);
      if products == [] then Run(acc, 1)
      else
        var acc' := AdmitPage(acc, products, limit, keep);
        if |products| < PageSize then Run(acc', 1)
        else
          var rest := Paginate(fetch, keep, limit, page + 1, acc', lastPage);
          Run(rest.products, rest.pageCount + 1)
  }

  /** Why the loop stopped where it did: every page before the last one
      requested was full, and after the last one either that page was short
      (or empty) or the limit had been reached. */
  lemma {:induction false} PaginateStops(fetch: int -> seq<Product>, keep: Product -> bool, limit: int,
                                         page: int, acc: seq<Product>, lastPage: int)
    requires page <= lastPage
    requires |fetch(lastPage)| < PageSize
    ensures var r := Paginate(fetch, keep, limit, page, acc, lastPage);
            && (forall p :: page <= p < page + r.pageCount - 1 ==> |fetch(p)| >= PageSize)
            && (r.pageCount >= 1 ==> |fetch(page + r.pageCount - 1)| < PageSize || |r.products| >= limit)
    decreases lastPage - page
  {
    if |acc| < limit {
      var products := fetch(page);
      if products != [] && |products| >= PageSize {
        var acc' := AdmitPage(acc, products, limit, keep);
        PaginateStops(fetch, keep, limit, page + 1, acc', lastPage);
      }
    }
  }

  /** No page is requested once `limit` products are held: before the last
      page requested, the loop held fewer than `limit` products, namely the
      first passing ones of what it had seen (after any products seen before
      `page`). */
  lemma {:induction false} PaginateRequestsBelowLimit(fetch: int -> seq<Product>, keep: Product -> bool, limit: int,
                                                      page: int, prev: seq<Product>, acc: seq<Product>, lastPage: int)
    requires page <= lastPage
    requires |fetch(lastPage)| < PageSize
    requires acc == Take(Filter(keep, prev), limit)
    ensures var r := Paginate(fetch, keep, limit, page, acc, lastPage);
            r.pageCount >= 1 ==>
              |Take(Filter(keep, prev + Flatten(Pages(fetch, page, r.pageCount - 1))), limit)| < limit
    decreases lastPage - page
  {
    if |acc| < limit {
      var products := fetch(page);
      if products == [] || |products| < PageSize {
        NoPagesSeen(fetch, page, prev);
      } else {
        var acc' := AdmitPage(acc, products, limit, keep);
        AdmitPageReference(prev, acc, products, limit, keep);
        PaginateRequestsBelowLimit(fetch, keep, limit, page + 1, prev + products, acc', lastPage);
        var rest := Paginate(fetch, keep, limit, page + 1, acc', lastPage);
        assert Paginate(fetch, keep, limit, page, acc, lastPage).pageCount == rest.pageCount + 1;
        if rest.pageCount >= 1 {
          HeldBeforeNextPage(fetch, keep, limit, page, prev, rest.pageCount);
        } else {
          NoPagesSeen(fetch, page, prev);
        }
      }
    }
  }

  lemma NoPagesSeen(fetch: int -> seq<Product>, page: int, prev: seq<Product>)
    ensures prev + Flatten(Pages(fetch, page, 0)) == prev
  {
  }

  /** What was held before the last of `count` pages from `page + 1` on,
      counted from `page`. */
  lemma HeldBeforeNextPage(fetch: int -> seq<Product>, keep: Product -> bool, limit: int,
                           page: int, prev: seq<Product>, count: nat)
    requires count >= 1
    requires |Take(Filter(keep, prev + fetch(page) + Flatten(Pages(fetch, page + 1, count - 1))), limit)| < limit
    ensures |Take(Filter(keep, prev + Flatten(Pages(fetch, page, count))), limit)| < limit
  {
    FlattenNextPage(fetch, page, count - 1);
    ReferenceStep(keep, limit, prev, fetch(page), Flatten(Pages(fetch, page + 1, count - 1)),
                  Flatten(Pages(fetch, page, count)),
                  Take(Filter(keep, prev + fetch(page) + Flatten(Pages(fetch, page + 1, count - 1))), limit));
  }

  /** The pages `first`, ..., `first + count - 1` as fetched. */
  function Pages(fetch: int -> seq<Product>, first: int, count: nat): (ps: seq<seq<Product>>)
    ensures |ps| == count
    ensures forall i :: 0 <= i < count ==> ps[i] == fetch(first + i)
    decreases count
  {
    if count == 0 then [] else [fetch(first)] + Pages(fetch, first + 1, count - 1)
  }

  /** One page of the inner loop, against the reference "filter everything seen,
      keep the first `limit`". */
  lemma {:induction false} AdmitPageReference(prev: seq<Product>, acc: seq<Product>, items: seq<Product>,
                                              limit: int, keep: Product -> bool)
    requires acc == Take(Filter(keep, prev), limit)
    ensures AdmitPage(acc, items, limit, keep) == Take(Filter(keep, prev + items), limit)
    decreases |items|
  {
    if items == [] {
      assert prev + items == prev;
    } else if |acc| >= limit {
      FilterAppend(keep, prev, items);
      TakeAppendFull(Filter(keep, prev), Filter(keep, items), limit);
    } else {
      var x := items[0];
      var acc' := if keep(x) then acc + [x] else acc;
      AdmitOne(prev, acc, x, limit, keep);
      AdmitPageReference(prev + [x], acc', items[1..], limit, keep);
      assert prev + [x] + items[1..] == prev + items;
    }
  }

  /** One product of the inner loop, below the limit. */
  lemma AdmitOne(prev: seq<Product>, acc: seq<Product>, x: Product, limit: int, keep: Product -> bool)
    requires acc == Take(Filter(keep, prev), limit)
    requires |acc| < limit
    ensures (if keep(x) then acc + [x] else acc) == Take(Filter(keep, prev + [x]), limit)
  {
    FilterAppend(keep, prev, [x]);
    assert Filter(keep, [x]) == if keep(x) then [x] else [] by {
      assert [x][1..] == [];
    }
    if keep(x) {
      TakeAppendOne(Filter(keep, prev), x, limit);
    }
  }

  /** The loop's output is the first `limit` products that pass the filters,
      taken from the concatenation of the fetched pages in page order (after
      any products seen before). Nothing is deduplicated. */
  lemma {:induction false} PaginateReference(fetch: int -> seq<Product>, keep: Product -> bool, limit: int,
                                             page: int, prev: seq<Product>, acc: seq<Product>, lastPage: int)
    requires page <= lastPage
    requires |fetch(lastPage)| < PageSize
    requires acc == Take(Filter(keep, prev), limit)
    ensures var r := Paginate(fetch, keep, limit, page, acc, lastPage);
            r.products == Take(Filter(keep, prev + Flatten(Pages(fetch, page, r.pageCount))), limit)
    decreases lastPage - page
  {
    if |acc| >= limit {
      assert prev + Flatten(Pages(fetch, page, 0)) == prev;
    } else {
      var products := fetch(page);
      var acc' := AdmitPage(acc, products, limit, keep);
      AdmitPageReference(prev, acc, products, limit, keep);
      if products == [] || |products| < PageSize {
        FlattenOnePage(fetch, page);
      } else {
        assert page != lastPage;
        PaginateReference(fetch, keep, limit, page + 1, prev + products, acc', lastPage);
        PaginateNextPage(fetch, keep, limit, page, prev, acc, lastPage);
      }
    }
  }

  /** The recursive step of `PaginateReference`: a full page followed by the
      rest of the loop is the loop from that page. */
  lemma PaginateNextPage(fetch: int -> seq<Product>, keep: Product -> bool, limit: int,
                         page: int, prev: seq<Product>, acc: seq<Product>, lastPage: int)
    requires page < lastPage
    requires |fetch(lastPage)| < PageSize
    requires |acc| < limit && |fetch(page)| >= PageSize
    requires var rest := Paginate(fetch, keep, limit, page + 1, AdmitPage(acc, fetch(page), limit, keep), lastPage);
             rest.products == Take(Filter(keep, prev + fetch(page) + Flatten(Pages(fetch, page + 1, rest.pageCount))), limit)
    ensures var r := Paginate(fetch, keep, limit, page, acc, lastPage);
            r.products == Take(Filter(keep, prev + Flatten(Pages(fetch, page, r.pageCount))), limit)
  {
    var rest := Paginate(fetch, keep, limit, page + 1, AdmitPage(acc, fetch(page), limit, keep), lastPage);
    var r := Paginate(fetch, keep, limit, page, acc, lastPage);
    assert r == Run(rest.products, rest.pageCount + 1);
    FlattenNextPage(fetch, page, rest.pageCount);
    ReferenceStep(keep, limit, prev, fetch(page), Flatten(Pages(fetch, page + 1, rest.pageCount)),
                  Flatten(Pages(fetch, page, rest.pageCount + 1)), rest.products);
  }

  lemma ReferenceStep(keep: Product -> bool, limit: int, prev: seq<Product>, first: seq<Product>,
                      later: seq<Product>, all: seq<Product>, products: seq<Product>)
    requires all == first + later
    requires products == Take(Filter(keep, prev + first + later), limit)
    ensures products == Take(Filter(keep, prev + all), limit)
  {
    assert prev + first + later == prev + all;
  }

  lemma FlattenOnePage(fetch: int -> seq<Product>, page: int)
    ensures Flatten(Pages(fetch, page, 1)) == fetch(page)
  {
    var pages := Pages(fetch, page, 1);
    assert pages == [fetch(page)];
    assert Flatten(pages[1..]) == [];
  }

  lemma FlattenNextPage(fetch: int -> seq<Product>, page: int, count: nat)
    ensures Flatten(Pages(fetch, page, count + 1)) == fetch(page) + Flatten(Pages(fetch, page + 1, count))
  {
    var pages := Pages(fetch, page, count + 1);
    assert pages[1..] == Pages(fetch, page + 1, count);
  }

  // ------------------------------------------------------------ entry points

  /** What `scrape_category` returns (`to_dict` of each product kept) and the
      requests it issued, page 1 first. */
  datatype Scrape = Scrape(items: seq<Dict>, requests: seq<Request>)

  /** The parsed content of each page of one category scrape. */
  function PageFetcher(client: Client, slug: string, section: string): int -> seq<Product>
  {
    p => FetchPage(client, slug, p, section)
  }

  /** Products that pass the filters still pass them after the round trip
      through `to_dict`. */
  lemma ExportKeeps(ps: seq<Product>, brandFilter: Option<string>, maxPrice: Option<real>)
    requires forall i :: 0 <= i < |ps| ==> Keeps(brandFilter, maxPrice, ps[i])
    ensures var ds := MapSeq(ToDict, ps);
            forall i :: 0 <= i < |ds| ==> FromDict(ds[i]).Some? && Keeps(brandFilter, maxPrice, FromDict(ds[i]).value)
  {
    var ds := MapSeq(ToDict, ps);
    forall i | 0 <= i < |ds|
      ensures FromDict(ds[i]) == Some(ps[i])
    {
      assert ds[i] == ToDict(ps[i]);
    }
  }

  /** `scrape_category`. `lastPage` only witnesses termination: some page from
      1 on comes back short (fewer than 60 parsed products). */
  function ScrapeCategory(client: Client, ghost lastPage: int, slug: string, limit: int := 100,
                          brandFilter: Option<string> := None, maxPrice: Option<real> := None,
                          section: Option<string> := None): (r: Scrape)
    requires 1 <= lastPage
    requires |FetchPage(client, slug, lastPage, SectionFor(slug, section))| < PageSize
    ensures limit <= 0 ==> r.items == [] && r.requests == []
    ensures |r.items| <= Room(limit)
    ensures forall i :: 0 <= i < |r.items| ==> FromDict(r.items[i]).Some?
    ensures forall i :: 0 <= i < |r.items| ==> Keeps(brandFilter, maxPrice, FromDict(r.items[i]).value)
    ensures forall i :: 0 <= i < |r.requests| ==>
              r.requests[i] == ListingRequest(slug, i + 1, SectionFor(slug, section))
    ensures limit > 0 ==> 1 <= |r.requests| <= lastPage
  {
    var sec := SectionFor(slug, section);
    var fetch := PageFetcher(client, slug, sec);
    var keep := Selector(brandFilter, maxPrice);
    var run := Paginate(fetch, keep, limit, 1, [], lastPage);
    var kept := SlicePrefix(run.products, limit);
    assert kept == run.products;
    ExportKeeps(kept, brandFilter, maxPrice);
    Scrape(MapSeq(ToDict, kept), Requests(slug, sec, run.pageCount))
  }

  /** The listing requests for pages 1..count. */
  function Requests(slug: string, section: string, count: nat): (rs: seq<Request>)
    ensures |rs| == count
    ensures forall i :: 0 <= i < count ==> rs[i] == ListingRequest(slug, i + 1, section)
  {
    seq(count, i => ListingRequest(slug, i + 1, section))
  }

  /** Pages are requested while they come back full and fewer than `limit`
      products are held: every page before the last one requested held at
      least 60 parsed products, the last one held fewer (or was empty, or its
      query failed) unless the limit was reached, and before the last request
      fewer than `limit` passing products had been collected. */
  lemma ScrapeCategoryStops(client: Client, lastPage: int, slug: string, limit: int,
                            brandFilter: Option<string>, maxPrice: Option<real>, section: Option<string>)
    requires 1 <= lastPage
    requires |FetchPage(client, slug, lastPage, SectionFor(slug, section))| < PageSize
    ensures var r := ScrapeCategory(client, lastPage, slug, limit, brandFilter, maxPrice, section);
            && (forall p :: 1 <= p < |r.requests| ==>
                  |FetchPage(client, slug, p, SectionFor(slug, section))| >= PageSize)
            && (|r.requests| >= 1 ==>
                  |FetchPage(client, slug, |r.requests|, SectionFor(slug, section))| < PageSize || |r.items| >= limit)
            && (|r.requests| >= 1 ==>
                  var before := Pages(PageFetcher(client, slug, SectionFor(slug, section)), 1, |r.requests| - 1);
                  |Take(Filter(Selector(brandFilter, maxPrice), Flatten(before)), limit)| < limit)
  {
    var sec := SectionFor(slug, section);
    var fetch := PageFetcher(client, slug, sec);
    var keep := Selector(brandFilter, maxPrice);
    ScrapeCategoryRun(client, lastPage, slug, limit, brandFilter, maxPrice, section);
    PaginateStops(fetch, keep, limit, 1, [], lastPage);
    assert [] == Take(Filter(keep, []), limit);
    PaginateRequestsBelowLimit(fetch, keep, limit, 1, [], [], lastPage);
    var run := Paginate(fetch, keep, limit, 1, [], lastPage);
    if run.pageCount >= 1 {
      assert [] + Flatten(Pages(fetch, 1, run.pageCount - 1)) == Flatten(Pages(fetch, 1, run.pageCount - 1));
    }
    assert forall p :: fetch(p) == FetchPage(client, slug, p, sec);
  }

  /** `scrape_category` is the pagination loop from page 1 with nothing held,
      its products converted by `to_dict`. */
  lemma ScrapeCategoryRun(client: Client, lastPage: int, slug: string, limit: int,
                          brandFilter: Option<string>, maxPrice: Option<real>, section: Option<string>)
    requires 1 <= lastPage
    requires |FetchPage(client, slug, lastPage, SectionFor(slug, section))| < PageSize
    ensures var r := ScrapeCategory(client, lastPage, slug, limit, brandFilter, maxPrice, section);
            var run := Paginate(PageFetcher(client, slug, SectionFor(slug, section)),
                                Selector(brandFilter, maxPrice), limit, 1, [], lastPage);
            |r.requests| == run.pageCount && |r.items| == |run.products|
            && r.items == MapSeq(ToDict, run.products)
  {
  }

  /** The whole scrape against its reference: the dictionaries of the first
      `limit` products passing both filters in the concatenation of pages
      1..k, where k is the number of pages requested. Duplicates across pages
      are kept. */
  lemma ScrapeCategoryReference(client: Client, lastPage: int, slug: string, limit: int,
                                brandFilter: Option<string>, maxPrice: Option<real>, section: Option<string>)
    requires 1 <= lastPage
    requires |FetchPage(client, slug, lastPage, SectionFor(slug, section))| < PageSize
    ensures var r := ScrapeCategory(client, lastPage, slug, limit, brandFilter, maxPrice, section);
            var pages := Pages(PageFetcher(client, slug, SectionFor(slug, section)), 1, |r.requests|);
            r.items == MapSeq(ToDict, Take(Filter(Selector(brandFilter, maxPrice), Flatten(pages)), limit))
  {
    var fetch := PageFetcher(client, slug, SectionFor(slug, section));
    var keep := Selector(brandFilter, maxPrice);
    assert [] == Take(Filter(keep, []), limit);
    PaginateReference(fetch, keep, limit, 1, [], [], lastPage);
    var run := Paginate(fetch, keep, limit, 1, [], lastPage);
    assert [] + Flatten(Pages(fetch, 1, run.pageCount)) == Flatten(Pages(fetch, 1, run.pageCount));
  }

  /** The output keeps the order of the fetched pages: it is a subsequence of
      the dictionaries of all fetched products, page by page. */
  lemma ScrapeCategoryKeepsPageOrder(client: Client, lastPage: int, slug: string, limit: int,
                                     brandFilter: Option<string>, maxPrice: Option<real>, section: Option<string>)
    requires 1 <= lastPage
    requires |FetchPage(client, slug, lastPage, SectionFor(slug, section))| < PageSize
    ensures var r := ScrapeCategory(client, lastPage, slug, limit, brandFilter, maxPrice, section);
            var pages := Pages(PageFetcher(client, slug, SectionFor(slug, section)), 1, |r.requests|);
            IsSubsequence(r.items, MapSeq(ToDict, Flatten(pages)))
  {
    ScrapeCategoryReference(client, lastPage, slug, limit, brandFilter, maxPrice, section);
    var r := ScrapeCategory(client, lastPage, slug, limit, brandFilter, maxPrice, section);
    var all := Flatten(Pages(PageFetcher(client, slug, SectionFor(slug, section)), 1, |r.requests|));
    TakeFilterIsSubsequence(Selector(brandFilter, maxPrice), all, limit);
    MapSubsequence(ToDict, Take(Filter(Selector(brandFilter, maxPrice), all), limit), all);
  }

  /** A failed query ends the scrape without error: no page after one whose
      query fails is requested. */
  lemma FailedQueryEndsScrape(client: Client, lastPage: int, slug: string, limit: int,
                              brandFilter: Option<string>, maxPrice: Option<real>, section: Option<string>, k: int)
    requires 1 <= lastPage
    requires |FetchPage(client, slug, lastPage, SectionFor(slug, section))| < PageSize
    requires 1 <= k && client(ListingRequest(slug, k, SectionFor(slug, section))).None?
    ensures |ScrapeCategory(client, lastPage, slug, limit, brandFilter, maxPrice, section).requests| <= k
  {
    ScrapeCategoryStops(client, lastPage, slug, limit, brandFilter, maxPrice, section);
    assert |FetchPage(client, slug, k, SectionFor(slug, section))| == 0;
  }

  // -------------------------------------------------------- convenience calls

  /** When a scrape of `slug` in `section` with filter `keep` stopped: no
      page for a limit of 0 or less, otherwise pages 1..k with k at most the
      witness `lastPage`; every page before page k was full, page k was
      short unless the limit was reached, and before page k was requested
      fewer than `limit` passing products were held. */
  ghost predicate StopsAt(client: Client, slug: string, section: string, keep: Product -> bool,
                          limit: int, lastPage: int, r: Scrape)
  {
    var k := |r.requests|;
    && (limit <= 0 ==> k == 0)
    && (limit > 0 ==> 1 <= k <= lastPage)
    && (forall p :: 1 <= p < k ==> |FetchPage(client, slug, p, section)| >= PageSize)
    && (k >= 1 ==> |FetchPage(client, slug, k, section)| < PageSize || |r.items| >= limit)
    && (k >= 1 ==> |Take(Filter(keep, Flatten(Pages(PageFetcher(client, slug, section), 1, k - 1))), limit)| < limit)
  }

  /** Every scrape stops as `StopsAt` describes. */
  lemma ScrapeCategoryStopsAt(client: Client, lastPage: int, slug: string, limit: int,
                              brandFilter: Option<string>, maxPrice: Option<real>, section: Option<string>)
    requires 1 <= lastPage
    requires |FetchPage(client, slug, lastPage, SectionFor(slug, section))| < PageSize
    ensures StopsAt(client, slug, SectionFor(slug, section), Selector(brandFilter, maxPrice), limit, lastPage,
                    ScrapeCategory(client, lastPage, slug, limit, brandFilter, maxPrice, section))
  {
    ScrapeCategoryStops(client, lastPage, slug, limit, brandFilter, maxPrice, section);
  }

  /** `scrape_men_clothing`: `/clothing` in the men's section, no filters. */
  function ScrapeMenClothing(client: Client, ghost lastPage: int, limit: int := 500): (r: Scrape)
    requires 1 <= lastPage && |FetchPage(client, "/clothing", lastPage, "men")| < PageSize
    ensures |r.items| <= Room(limit)
    ensures forall i :: 0 <= i < |r.requests| ==> r.requests[i] == ListingRequest("/clothing", i + 1, "men")
    ensures r.items == MapSeq(ToDict, Take(Filter(Selector(None, None),
                                              Flatten(Pages(PageFetcher(client, "/clothing", "men"), 1, |r.requests|))), limit))
    ensures StopsAt(client, "/clothing", "men", Selector(None, None), limit, lastPage, r)
  {
    ScrapeCategoryStopsAt(client, lastPage, "/clothing", limit, None, None, Some("men"));
    ScrapeCategoryReference(client, lastPage, "/clothing", limit, None, None, Some("men"));
    ScrapeCategory(client, lastPage, "/clothing", limit, section := Some("men"))
  }

  /** `scrape_women_clothing`: `/clothing` in the women's section, no filters. */
  function ScrapeWomenClothing(client: Client, ghost lastPage: int, limit: int := 500): (r: Scrape)
    requires 1 <= lastPage && |FetchPage(client, "/clothing", lastPage, "women")| < PageSize
    ensures |r.items| <= Room(limit)
    ensures forall i :: 0 <= i < |r.requests| ==> r.requests[i] == ListingRequest("/clothing", i + 1, "women")
    ensures r.items == MapSeq(ToDict, Take(Filter(Selector(None, None),
                                              Flatten(Pages(PageFetcher(client, "/clothing", "women"), 1, |r.requests|))), limit))
    ensures StopsAt(client, "/clothing", "women", Selector(None, None), limit, lastPage, r)
  {
    ScrapeCategoryStopsAt(client, lastPage, "/clothing", limit, None, None, Some("women"));
    ScrapeCategoryReference(client, lastPage, "/clothing", limit, None, None, Some("women"));
    ScrapeCategory(client, lastPage, "/clothing", limit, section := Some("women"))
  }

  /** `scrape_men_shoes`: `/shoes` in the men's section, no filters. */
  function ScrapeMenShoes(client: Client, ghost lastPage: int, limit: int := 100): (r: Scrape)
    requires 1 <= lastPage && |FetchPage(client, "/shoes", lastPage, "men")| < PageSize
    ensures |r.items| <= Room(limit)
    ensures forall i :: 0 <= i < |r.requests| ==> r.requests[i] == ListingRequest("/shoes", i + 1, "men")
    ensures r.items == MapSeq(ToDict, Take(Filter(Selector(None, None),
                                              Flatten(Pages(PageFetcher(client, "/shoes", "men"), 1, |r.requests|))), limit))
    ensures StopsAt(client, "/shoes", "men", Selector(None, None), limit, lastPage, r)
  {
    ScrapeCategoryStopsAt(client, lastPage, "/shoes", limit, None, None, Some("men"));
    ScrapeCategoryReference(client, lastPage, "/shoes", limit, None, None, Some("men"));
    ScrapeCategory(client, lastPage, "/shoes", limit, section := Some("men"))
  }

  /** `scrape_gucci_under_1000`: the Gucci designer listing in the men's
      section with a maximum price of 1000 and no brand filter. */
  function ScrapeGucciUnder1000(client: Client, ghost lastPage: int, limit: int := 20): (r: Scrape)
    requires 1 <= lastPage && |FetchPage(client, "/designers/gucci", lastPage, "men")| < PageSize
    ensures |r.items| <= Room(limit)
    ensures forall i :: 0 <= i < |r.items| ==>
              && FromDict(r.items[i]).Some?
              && var p := FromDict(r.items[i]).value; p.price.None? || p.price.value == 0.0 || p.price.value <= 1000.0
    ensures forall i :: 0 <= i < |r.requests| ==> r.requests[i] == ListingRequest("/designers/gucci", i + 1, "men")
    ensures r.items == MapSeq(ToDict, Take(Filter(Selector(None, Some(1000.0)),
                                              Flatten(Pages(PageFetcher(client, "/designers/gucci", "men"), 1, |r.requests|))), limit))
    ensures StopsAt(client, "/designers/gucci", "men", Selector(None, Some(1000.0)), limit, lastPage, r)
  {
    ScrapeCategoryStopsAt(client, lastPage, "/designers/gucci", limit, None, Some(1000.0), Some("men"));
    ScrapeCategoryReference(client, lastPage, "/designers/gucci", limit, None, Some(1000.0), Some("men"));
    var r := ScrapeCategory(client, lastPage, "/designers/gucci", limit, maxPrice := Some(1000.0), section := Some("men"));
    KeptUnder(r.items, 1000.0);
    r
  }

  /** Dictionaries of products that pass a price cap are priced under it,
      unless unpriced or priced 0. */
  lemma KeptUnder(ds: seq<Dict>, cap: real)
    requires cap != 0.0
    requires forall i :: 0 <= i < |ds| ==> FromDict(ds[i]).Some? && Keeps(None, Some(cap), FromDict(ds[i]).value)
    ensures forall i :: 0 <= i < |ds| ==>
              && FromDict(ds[i]).Some?
              && var p := FromDict(ds[i]).value; p.price.None? || p.price.value == 0.0 || p.price.value <= cap
  {
  }

  /** `scrape_elie_saab`: the Elie Saab designer listing in the women's
      section, no filters. */
  function ScrapeElieSaab(client: Client, ghost lastPage: int, limit: int := 50): (r: Scrape)
    requires 1 <= lastPage && |FetchPage(client, "/designers/elie-saab", lastPage, "women")| < PageSize
    ensures |r.items| <= Room(limit)
    ensures forall i :: 0 <= i < |r.requests| ==> r.requests[i] == ListingRequest("/designers/elie-saab", i + 1, "women")
    ensures r.items == MapSeq(ToDict, Take(Filter(Selector(None, None),
                                              Flatten(Pages(PageFetcher(client, "/designers/elie-saab", "women"), 1, |r.requests|))), limit))
    ensures StopsAt(client, "/designers/elie-saab", "women", Selector(None, None), limit, lastPage, r)
  {
    ScrapeCategoryStopsAt(client, lastPage, "/designers/elie-saab", limit, None, None, Some("women"));
    ScrapeCategoryReference(client, lastPage, "/designers/elie-saab", limit, None, None, Some("women"));
    ScrapeCategory(client, lastPage, "/designers/elie-saab", limit, section := Some("women"))
  }
}
