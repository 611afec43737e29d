# Mytheresa scraper core in Dafny

This project models the core of a fashion-catalogue scraper and proves
properties of the model. The model covers:

- the GraphQL scraper (`MytheresaAPIScraper`): section detection, page
  parsing, the pagination and filter loop of `scrape_category` and its
  convenience calls;
- the product record (`Product.from_api_response`, `to_dict`) and the
  listing-query variables (`build_listing_variables`);
- the browser scraper (`MytheresaScraper`): the category guard, the filter
  loop `_extract_products` and the wrappers, with the `<img>` extractor
  `ProductExtractor.extract_from_element`;
- the image downloader (`ImageDownloader`): file naming, saving and
  counting on an abstract directory, and the download loop of
  `scrape_and_save.py` that drives it;
- the upload validator `ImageProcessor.validate_and_process`.

Everything the code reaches outside itself becomes a function parameter:

- the GraphQL client (`Request -> Option<Envelope>`);
- the browser session (`(url, target_items) -> BrowserRun`);
- the HTTP image download (`(url, timeout) -> bool`);
- PIL decoding (`bytes -> Option<Decoded>`).

Python truthiness, `dict.get` defaults, `a or b or c` short-circuiting and
the order of checks are written out explicitly.

Files, one module each:

| file | module | models |
|---|---|---|
| options.dfy | Options | `None` and `dict.get(key, default)` |
| values.dfy | Values | JSON-like values and `dict` |
| text.dfy | Text | `lower`, `in`, `startswith`, `endswith`, `strip`, `split(sep)[-1]`, `str(n)` |
| seqs.dfy | Seqs | filtering, filter-mapping, prefixes, page concatenation, subsequences |
| models.dfy | Models | scraper/models.py |
| graphql_queries.dfy | GraphqlQueries | scraper/graphql_queries.py |
| filters.dfy | Filters | the brand and price filters both scrapers share |
| api_scraper.dfy | ApiScraper | scraper/mytheresa_api_scraper.py |
| product_extractor.dfy | ProductExtractor | scraper/product_extractor.py |
| selenium_scraper.dfy | SeleniumScraper | scraper/mytheresa_scraper.py |
| image_downloader.dfy | ImageDownloader | scraper/image_downloader.py and the loop of scrape_and_save.py |
| image_processor.dfy | ImageProcessor | app/utils/image_processor.py |

Behaviour of the code worth knowing before reading the contracts:

- The pagination loop does not deduplicate products across pages;
  `ApiScraper.ScrapeCategoryReference` states that duplicates are kept.
- There is no maximum-page guard and no retry of a failed query. The loop
  ends when a page comes back short or empty, or when `limit` products are
  held, so termination of the model is a precondition (see "## Left out").
- The brand filter is a case-insensitive substring test, not an exact
  match (`Filters.BrandFilterMatchesInfix`).
- The price filter is guarded by truthiness: a zero or missing price, or a
  zero or missing maximum, passes. The comparison is on the converted price
  in major units (`Filters.PriceFilterMeaning`).
- A failed query does not raise to the caller. It gives an empty page,
  which ends the scrape (`ApiScraper.FailedQueryEndsScrape`).

## Model

| member | source | states |
|---|---|---|
| Models.PriceOf | scraper/models.py:43-44 | the price is None exactly when `mainPrice` is absent or 0; otherwise it is non-zero and 100 times it gives back the cents |
| Models.FromApiResponse | scraper/models.py:35-56 | None exactly when there is no non-empty first display image; otherwise the URL is that image, the price is the converted `mainPrice`, and each other field is the item's value or its documented default |
| Models.LaterImagesIgnored | scraper/models.py:36-37 | display images after the first do not change the product |
| Models.PriceIsCentsOverHundred | scraper/models.py:43-44 | a product's price times 100 is the item's `mainPrice` |
| Models.DefaultsForAbsentKeys | scraper/models.py:46-56 | an item with only an image gets brand "Unknown", empty strings, no price and `has_stock` False |
| Models.ToDict | scraper/models.py:58-70 | the dictionary has exactly the nine field names, and reading it back gives the same product |
| Models.ToDictOfFromDict | scraper/models.py:58-70 | every dictionary that reads back as a product is that product's `to_dict` (the other half of the round trip) |
| Models.ToDictInjective | scraper/models.py:58-70 | different products give different dictionaries |
| GraphqlQueries.ListingNamesDeclared | scraper/graphql_queries.py:7-8 | the query declares exactly the variables page, size, slug, sort and filtersQueryParams |
| GraphqlQueries.BuildListingVariables | scraper/graphql_queries.py:40-66 | the keys are exactly the five variable names, and reading the dictionary back gives every argument unchanged, including a zero or negative page |
| GraphqlQueries.BuildOfRead | scraper/graphql_queries.py:60-66 | every dictionary that reads back as arguments is the one built from them (the other half of the round trip) |
| GraphqlQueries.VariablesMatchDeclaration | scraper/graphql_queries.py:7-66 | the built keys are the declared variables, and each value fits its declared GraphQL type |
| GraphqlQueries.ListingDefaults | scraper/graphql_queries.py:40-46 | the defaults are page 1, size 60, no sort and no filters |
| Filters.BrandFilterMatchesInfix | scraper/mytheresa_api_scraper.py:70-71 | any brand that contains the filter text, in any letter case, is admitted |
| Filters.BrandFilterIgnoresCase | scraper/mytheresa_api_scraper.py:70-71 | the letter case of the brand does not affect the brand filter |
| Filters.BrandFilterOff | scraper/mytheresa_api_scraper.py:70-71 | an absent or empty brand filter admits every brand |
| Filters.PriceFilterMeaning | scraper/mytheresa_api_scraper.py:74-75 | with a non-zero maximum, a price is admitted exactly when it is missing, zero or at most the maximum; a missing or zero maximum admits all |
| Text.Strip | scraper/product_extractor.py:31 | the result is an infix of the input with only whitespace removed around it, and it neither starts nor ends with whitespace |
| Text.AfterLast | scraper/product_extractor.py:31 | the result is the suffix after the last separator, or the whole string when there is none, and it contains no separator |
| Text.NatToString | scraper/image_downloader.py:89 | the rendering of a number is a non-empty string of decimal digits with no leading zero |
| Text.DigitsValueOfNatToString | scraper/image_downloader.py:89 | the decimal rendering of a number reads back as that number |
| Text.NatToStringInjective | scraper/image_downloader.py:89 | distinct numbers render differently |
| ApiScraper.DetectSection | scraper/mytheresa_api_scraper.py:164-169 | the section is always "men" or "women" |
| ApiScraper.DetectSectionCases | scraper/mytheresa_api_scraper.py:164-169 | a slug is women's exactly when it has a women's marker and no men's marker; otherwise it is men's |
| ApiScraper.MenPrefixWins | scraper/mytheresa_api_scraper.py:164-165 | a slug starting with "/men" or containing "/men/" is men's, even one under "/women" |
| ApiScraper.WomenPrefix | scraper/mytheresa_api_scraper.py:166-167 | a slug starting with "/women" without a "/men/" segment is women's |
| ApiScraper.SectionFor | scraper/mytheresa_api_scraper.py:50-51 | a given section is used unchanged; without one, the detected section is used, which is "men" or "women" |
| ApiScraper.RawProducts | scraper/mytheresa_api_scraper.py:142 | when every key along the path is present, the raw list is the `products` value found there; when any key is missing, it is empty |
| ApiScraper.ParseProductsKeepsExactlyImaged | scraper/mytheresa_api_scraper.py:139-152 | parsed products come from increasing raw positions, each with a main image, and every raw item with a main image is kept |
| ApiScraper.ParseProducts | scraper/mytheresa_api_scraper.py:129-152 | the parsed page is shorter than the raw page by exactly the number of imageless items, and every parsed product has a non-empty image URL |
| ApiScraper.MissingPathParsesEmpty | scraper/mytheresa_api_scraper.py:142 | a response missing any key along the path parses to no products |
| ApiScraper.FetchPage | scraper/mytheresa_api_scraper.py:105-127 | a failed query gives an empty page; a successful one gives the parsed products of its response, each with a non-empty image URL |
| ApiScraper.AdmitPage | scraper/mytheresa_api_scraper.py:65-77 | the inner loop only appends, stops at the limit, and appends only products of the page that pass the filters |
| ApiScraper.AdmitPageReference | scraper/mytheresa_api_scraper.py:65-77 | one page of the inner loop equals the first `limit` passing products of everything seen so far |
| ApiScraper.Paginate | scraper/mytheresa_api_scraper.py:55-83 | the loop extends what it holds, never exceeds the limit, keeps only passing products, and requests at least one page when below the limit |
| ApiScraper.PaginateStops | scraper/mytheresa_api_scraper.py:55-83 | every page before the last one requested was full, and the last one was short unless the limit was reached |
| ApiScraper.PaginateRequestsBelowLimit | scraper/mytheresa_api_scraper.py:55 | no page is requested once `limit` products are held: before the last page requested, fewer than `limit` passing products had been seen |
| ApiScraper.PaginateReference | scraper/mytheresa_api_scraper.py:55-83 | the loop's products are the first `limit` passing products of the requested pages, concatenated in page order |
| ApiScraper.ScrapeCategory | scraper/mytheresa_api_scraper.py:25-86 | a limit of 0 or less fetches nothing; at most `limit` items; every item is a product dictionary that passes both filters; the requests are pages 1..k of size 60 in the resolved section |
| ApiScraper.ScrapeCategoryRun | scraper/mytheresa_api_scraper.py:46-86 | the scrape is the pagination loop from page 1 with nothing held, converted by `to_dict` |
| ApiScraper.ScrapeCategoryStops | scraper/mytheresa_api_scraper.py:55-83 | pages before the last one requested held 60 parsed products; the last held fewer unless the limit was reached; before the last request fewer than `limit` passing products were held |
| ApiScraper.ScrapeCategoryStopsAt | scraper/mytheresa_api_scraper.py:55-83 | every scrape stops as `StopsAt` describes: no page for a limit of 0 or less, otherwise pages 1..k, each before k full, k short unless the limit was reached, and fewer than `limit` passing products held before page k |
| ApiScraper.ScrapeCategoryReference | scraper/mytheresa_api_scraper.py:46-86 | the output is the `to_dict` of the first `limit` passing products of pages 1..k in page order, with duplicates kept |
| ApiScraper.ScrapeCategoryKeepsPageOrder | scraper/mytheresa_api_scraper.py:65-77 | the output is a subsequence of all fetched products, in page order |
| ApiScraper.FailedQueryEndsScrape | scraper/mytheresa_api_scraper.py:119-120 | no page after one whose query fails is requested |
| ApiScraper.ScrapeMenClothing | scraper/mytheresa_api_scraper.py:173-175 | it requests "/clothing" pages 1..k in the men's section, and returns the `to_dict` of the first `limit` products of those pages, unfiltered, where k stops as in the loop: k is at least 1 and at most the short-page witness for a positive limit and 0 otherwise, pages before k were full, page k was short unless `limit` items were held, and fewer than `limit` passing products were held before page k |
| ApiScraper.ScrapeWomenClothing | scraper/mytheresa_api_scraper.py:177-179 | it requests "/clothing" pages 1..k in the women's section, and returns the `to_dict` of the first `limit` products of those pages, unfiltered, where k stops as in the loop: k is at least 1 and at most the short-page witness for a positive limit and 0 otherwise, pages before k were full, page k was short unless `limit` items were held, and fewer than `limit` passing products were held before page k |
| ApiScraper.ScrapeMenShoes | scraper/mytheresa_api_scraper.py:181-183 | it requests "/shoes" pages 1..k in the men's section, and returns the `to_dict` of the first `limit` products of those pages, unfiltered, where k stops as in the loop: k is at least 1 and at most the short-page witness for a positive limit and 0 otherwise, pages before k were full, page k was short unless `limit` items were held, and fewer than `limit` passing products were held before page k |
| ApiScraper.ScrapeGucciUnder1000 | scraper/mytheresa_api_scraper.py:185-192 | it requests "/designers/gucci" pages 1..k in the men's section, and returns the `to_dict` of the first `limit` products of those pages that pass the price filter with maximum 1000, each priced at most 1000 unless it has no price or a zero price, where k stops as in the loop: k is at least 1 and at most the short-page witness for a positive limit and 0 otherwise, pages before k were full, page k was short unless `limit` items were held, and fewer than `limit` passing products were held before page k |
| ApiScraper.ScrapeElieSaab | scraper/mytheresa_api_scraper.py:194-200 | it requests "/designers/elie-saab" pages 1..k in the women's section, and returns the `to_dict` of the first `limit` products of those pages, unfiltered, where k stops as in the loop: k is at least 1 and at most the short-page witness for a positive limit and 0 otherwise, pages before k were full, page k was short unless `limit` items were held, and fewer than `limit` passing products were held before page k |
| ProductExtractor.OrAttr | scraper/product_extractor.py:18-22 | `a or b` yields `a` when `a` is truthy or its read raises, and `b` when `a` was read and is falsy |
| ProductExtractor.BrandOfAlt | scraper/product_extractor.py:28-31 | the brand taken from alt text contains no `|` |
| ProductExtractor.ExtractFromElement | scraper/product_extractor.py:14-39 | a record has no price, a non-empty URL containing "mytheresa.com" and a brand without `|`; a failing `src` or `alt` read gives None |
| ProductExtractor.ImageUrlIsFirstNonEmpty | scraper/product_extractor.py:18-25 | given the first non-empty source, a record exists exactly when that URL mentions the domain and `alt` can be read, and the record's URL is that source |
| ProductExtractor.ExtractedUrlHasFirstChoice | scraper/product_extractor.py:18-22 | every record's URL is the first non-empty source, after sources that were read without error and were empty |
| ProductExtractor.NoUrlNoRecord | scraper/product_extractor.py:24-25 | without any non-empty source nothing is extracted |
| ProductExtractor.LaterSourcesNotRead | scraper/product_extractor.py:18-22 | with a non-empty `src`, the other sources, failing or not, do not matter |
| ProductExtractor.BrandFromAltText | scraper/product_extractor.py:28-31 | with a `|` in the alt text, the brand is the stripped text after the last `|`; otherwise it is "Unknown" |
| SeleniumScraper.ExtractProducts | scraper/mytheresa_scraper.py:159-185 | the result is the first `limit` records that extract and pass both filters, in page order; scanning stops as soon as `limit` are held |
| SeleniumScraper.ScanStep | scraper/mytheresa_scraper.py:166-181 | scanning one more element appends its record exactly when it extracts and passes |
| SeleniumScraper.StoppedScan | scraper/mytheresa_scraper.py:161-163 | stopping at the limit or at the end leaves the first `limit` passing records of the whole page |
| SeleniumScraper.ExpectedKeepsOrder | scraper/mytheresa_scraper.py:161-181 | the records returned are a subsequence of all extracted records |
| SeleniumScraper.PriceFilterInert | scraper/mytheresa_scraper.py:177-179 | extracted records carry no price, so the price filter drops nothing |
| SeleniumScraper.ScrapeCategory | scraper/mytheresa_scraper.py:73-116 | an unknown category returns nothing before any browser use; a loaded page gives the records of `_extract_products`; a timeout or a browser failure gives nothing |
| SeleniumScraper.ScrapeMenClothing | scraper/mytheresa_scraper.py:190-192 | at most `limit` records; a loaded men's clothing page gives its first `limit` records, unfiltered; a timeout or a browser failure gives nothing |
| SeleniumScraper.ScrapeWomenClothing | scraper/mytheresa_scraper.py:194-196 | at most `limit` records; a loaded women's clothing page gives its first `limit` records, unfiltered; a timeout or a browser failure gives nothing |
| SeleniumScraper.ScrapeMenShoes | scraper/mytheresa_scraper.py:198-200 | at most `limit` records; a loaded men's shoes page gives its first `limit` records, unfiltered; a timeout or a browser failure gives nothing |
| SeleniumScraper.ScrapeGucciUnder1000 | scraper/mytheresa_scraper.py:202-209 | men's clothing filtered by brand "Gucci" and maximum price 1000; every brand contains "gucci" in any case; a timeout or a browser failure gives nothing |
| SeleniumScraper.ScrapeElieSaab | scraper/mytheresa_scraper.py:211-217 | women's clothing filtered by brand "Elie Saab"; every brand contains "elie saab" in any case; a timeout or a browser failure gives nothing |
| ImageDownloader.EnsureDir | scraper/image_downloader.py:53-54 | the category directory exists afterwards, and no directory or file is removed or added |
| ImageDownloader.Matching | scraper/image_downloader.py:86 | the names `*.<ext>` matches are exactly those ending in `.<ext>` |
| ImageDownloader.FileName | scraper/image_downloader.py:89 | the name ends with the extension |
| ImageDownloader.GetNextFilename | scraper/image_downloader.py:72-89 | only the category directory may be created, no file is added, and the name carries the extension |
| ImageDownloader.NextNameNumber | scraper/image_downloader.py:86-89 | the offered name carries number k exactly when k is one more than the number of `.<ext>` files already there |
| ImageDownloader.DownloadAndSave | scraper/image_downloader.py:32-70 | the directory exists afterwards and no other directory is created or removed; on success the path is `<output>/<category>/<filename>` and that file is added; on failure None and no file changes |
| ImageDownloader.GetDownloadCount | scraper/image_downloader.py:91-105 | 0 without the directory; otherwise the number of files whose name contains a `.`, that is all files but the dotless ones |
| ImageDownloader.DownloadCountOfNumbered | scraper/image_downloader.py:91-105 | a directory holding exactly the numbered files 1..k counts k downloads |
| ImageDownloader.DownloadCountCoversMatching | scraper/image_downloader.py:86-105 | every file the next-name count sees is also counted by `get_download_count` |
| ImageDownloader.FileNameInjective | scraper/image_downloader.py:89 | different numbers give different names |
| ImageDownloader.NextNameFresh | scraper/image_downloader.py:86-89 | in a directory holding exactly names 1..n, the next name is number n + 1 and is not taken |
| ImageDownloader.GapReusesName | scraper/image_downloader.py:86-89 | with a gap in the numbering the next name can already be taken |
| ImageDownloader.FilePathInjective | scraper/image_downloader.py:61 | in one category directory, different names give different paths |
| ImageDownloader.SaveOne | scrape_and_save.py:55-60 | one round names the file one more than the number of `.jpg` files there; a successful download saves it under that name and reports its path, a failed one reports None and changes no file; no other category's directory or files change |
| ImageDownloader.SaveAll | scrape_and_save.py:53-63 | the loop does one round, and reports one outcome, per URL |
| ImageDownloader.SaveLoopNumbers | scrape_and_save.py:53-63 | a loop whose every round keeps the numbering leaves names 1..n+m after m saves, and reports paths n+1..n+m in order |
| ImageDownloader.SaveAllKeepsNumbering | scrape_and_save.py:53-63 | starting from names 1..n, the download loop leaves names 1..n+m with no gap and saves numbers n+1, n+2, … in order |
| ImageDownloader.SaveAllDistinct | scrape_and_save.py:53-63 | no two saves of one loop write the same file |
| ImageDownloader.SaveAllCount | scrape_and_save.py:53-63 | after the loop from names 1..n, `get_download_count` is n plus the number of successful downloads |
| ImageProcessor.Normalise | app/utils/image_processor.py:75-77 | the mode becomes "RGB" or "L": a mode other than these becomes "RGB", and the image is unchanged exactly when its mode was already one of them; size is kept, and a converted image has no format, as PIL gives it |
| ImageProcessor.ValidateAndProcess | app/utils/image_processor.py:18-87 | accepted exactly when the size is at most 10 MiB, decoding succeeds and both sides are within 50..4096; every rejection is status 400; an accepted result copies the decoded size and format, reports the byte length, keeps an "RGB" or "L" mode and turns any other mode into "RGB", and the returned image has that mode and size: it is the decoded image when the mode was kept, and has no format when it was converted |
| ImageProcessor.DetailTexts | app/utils/image_processor.py:33-72 | the details read "Image too large. Max size: 10.0MB", "Image dimensions too large. Max: 4096x4096px" and "Image dimensions too small. Min: 50x50px" |
| ImageProcessor.DetailsDistinct | app/utils/image_processor.py:33-72 | the four details differ, so a detail names exactly one failed check |
| ImageProcessor.RejectionReasons | app/utils/image_processor.py:32-72 | each detail is given exactly when its check is the first to fail, in the order size, decoding, maximum, minimum |
| ImageProcessor.OversizeNeverDecoded | app/utils/image_processor.py:33-41 | an oversized upload is rejected whatever the decoder would say |
| ImageProcessor.WideAndFlatIsTooLarge | app/utils/image_processor.py:62-72 | a 5000x10 image is reported as too large, not too small |
| ImageProcessor.NormaliseIdempotent | app/utils/image_processor.py:75-77 | a converted image is not converted again |

## Left out

- The GraphQL client (scraper/api_client.py) is an oracle on the request.
  `None` covers a non-200 status, a GraphQL `errors` list and any exception.
  The request holds only the variables and the section. The query text is
  the same on every call and is not part of it.
- JSON responses are typed records. Present-but-`null` keys and values of
  the wrong type are not modelled, so the `except` of `_parse_products` has
  no counterpart.
- Python floats are Dafny reals, so the rounding of `mainPrice / 100` is
  not modelled.
- `str.lower` maps only ASCII letters. `str.strip` removes only ASCII
  whitespace.
- Browser control (scraper/selenium_driver.py, scraper/page_scroller.py),
  the five-second sleep and the initial wait are one oracle. It returns the
  `<img>` elements or reports a timeout or failure.
- An element's attribute reads are fixed values, each possibly failing.
  The page changing between reads is not modelled.
- Logging, the sleeps and the progress lines of scrape_and_save.py are not
  modelled. Nor is its early return for an empty item list, which the loop
  over no URLs already covers.
- Process launching (start_app.py), the web UI (frontend/app.py), the model
  service (app/services/bedrock_service.py) and the FastAPI glue are not
  modelled.
- The image directory holds names only. File contents are not modelled.
  Directories whose names match a pattern are not modelled. The creation of
  the output directory in the constructor is not modelled.
- File-system failures are not modelled: a failing `mkdir`, or a write that
  fails after a successful download. Paths are not normalised: a category
  or file name containing `/` is taken as one name.
- PIL is an oracle from bytes to size, format and mode, or a failure. The
  opened image is that record; `convert("RGB")` sets its mode to "RGB" and,
  as PIL does for every image it creates, clears its format. The
  dictionary's `format` is read before the conversion and keeps the
  decoded one.
- ImageProcessor.ValidateAndProcess: does not model a failing
  `convert("RGB")`. The conversion runs outside the `try`, so an image that
  passes `verify()` but whose pixel data cannot be loaded raises an error
  that is not an HTTP 400. The model treats conversion as total, so its
  acceptance condition and its "every rejection is 400" cover only images
  whose conversion succeeds.
- ApiScraper.ScrapeCategory: covers only runs in which some page from 1 on
  comes back short or empty; the ghost `lastPage` names such a page. The
  code also ends, without a short page, when the limit is reached before
  one, and at once for a limit of 0 or less; those runs are outside the
  model unless a short page exists. A client whose pages are all full
  while fewer than `limit` products pass makes the code loop forever. The
  wrappers ApiScraper.ScrapeMenClothing, ScrapeWomenClothing,
  ScrapeMenShoes, ScrapeGucciUnder1000 and ScrapeElieSaab carry the same
  precondition.
- SeleniumScraper.ScrapeCategory (and the wrappers
  SeleniumScraper.ScrapeMenClothing, ScrapeWomenClothing, ScrapeMenShoes,
  ScrapeGucciUnder1000 and ScrapeElieSaab): the cleanup in the `finally`
  (`driver.quit()` without a guard) is taken to succeed. A cleanup that
  raises, most likely after a browser crash, would make the call raise
  instead of returning the list; no browser outcome models it.
- SeleniumScraper.ExtractProducts: the out-parameter `examined` does not
  exist in the source. It counts the elements handed to the extractor, so
  that the early stop can be stated.
- ImageDownloader.SaveAll: its own contract states only the number of
  rounds. Its numbering, distinctness and resulting count are stated, for a
  directory numbered without gaps, by ImageDownloader.SaveAllKeepsNumbering,
  ImageDownloader.SaveAllDistinct and ImageDownloader.SaveAllCount.
