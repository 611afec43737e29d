/** `ProductExtractor.extract_from_element` of scraper/product_extractor.py:
    the record scraped from one `<img>` element of a listing page.

    An element is the value of each attribute read: missing (`None`), a
    string, or a read that raises (a stale element, a lost session). Only the
    reads Python actually performs can raise into the result: `a or b or c`
    stops at the first truthy value. */
module ProductExtractor {
  import opened Options
  import opened Text
  import Models

  datatype Attr = Missing | Text(s: string) | Raises

  /** The attributes of an image element that the extractor reads. */
  datatype ImgElement = ImgElement(src: Attr, dataSrc: Attr, dataLazySrc: Attr, alt: Attr)

  /** The dictionary `{"image_url", "brand", "price"}` the extractor returns. */
  datatype Extracted = Extracted(imageUrl: string, brand: string, price: Option<real>)

  /** The domain an image URL must mention. */
  const Domain := "mytheresa.com"

  /** Truthiness of an attribute value: `None` and `""` are false. */
  predicate Truthy(a: Attr)
  {
    a.Text? && a.s != ""
  }

  /** Python's `a or b` on attribute reads: `b` is read only when `a` is falsy,
      and a raising read propagates. */
  function OrAttr(a: Attr, b: Attr): (r: Attr)
    ensures r == a || r == b
    ensures Truthy(a) ==> r == a
    ensures a.Raises? ==> r == a
    ensures !a.Raises? && !Truthy(a) ==> r == b
  {
    if a.Raises? || Truthy(a) then a else b
  }

  /** The three URL sources, in the order the extractor tries them. */
  function Sources(e: ImgElement): seq<Attr>
  {
    [e.src, e.dataSrc, e.dataLazySrc]
  }

  /** The brand carried by an alt text: the stripped text after its last `|`,
      or "Unknown" without one. */
  function BrandOfAlt(alt: string): (r: string)
    ensures '|' !in r
  {
    if alt != "" && '|' in alt then
      StripAddsNothing(AfterLast(alt, '|'), '|');
      Strip(AfterLast(alt, '|'))
    else Models.UnknownBrand
  }

  /** `extract_from_element`. */
  function ExtractFromElement(e: ImgElement): (r: Option<Extracted>)
    ensures r.Some? ==> r.value.price.None?
    ensures r.Some? ==> r.value.imageUrl != "" && Contains(r.value.imageUrl, Domain)
    ensures r.Some? ==> '|' !in r.value.brand
    ensures e.src.Raises? || e.alt.Raises? ==> r.None?
  {
    var url := OrAttr(OrAttr(e.src, e.dataSrc), e.dataLazySrc);
    if url.Raises? || !Truthy(url) || !Contains(url.s, Domain) then None
    else
      match e.alt
      case Raises => None
      case Missing => Some(Extracted(url.s, Models.UnknownBrand, None))
      case Text(a) => Some(Extracted(url.s, BrandOfAlt(a), None))
  }

  /** Position `k` is the one `src or data-src or data-lazy-src` settles on:
      it is truthy and every earlier source was read without error and was
      falsy. */
  predicate FirstChoice(attrs: seq<Attr>, k: int)
  {
    && 0 <= k < |attrs|
    && Truthy(attrs[k])
    && forall j :: 0 <= j < k ==> attrs[j] == Missing || attrs[j] == Text("")
  }

  /** The image URL is the first non-empty source; the element is kept exactly
      when that URL mentions the domain and the alt text can be read. */
  lemma ImageUrlIsFirstNonEmpty(e: ImgElement, k: int)
    requires FirstChoice(Sources(e), k)
    ensures var r := ExtractFromElement(e);
            && (r.Some? <==> Contains(Sources(e)[k].s, Domain) && !e.alt.Raises?)
            && (r.Some? ==> r.value.imageUrl == Sources(e)[k].s)
  {
    var srcs := Sources(e);
    if k >= 1 {
      assert srcs[0] == e.src;
    }
    if k == 2 {
      assert srcs[1] == e.dataSrc;
    }
  }

  /** Every kept element has a first non-empty source, and its URL is that one. */
  lemma ExtractedUrlHasFirstChoice(e: ImgElement) returns (k: int)
    requires ExtractFromElement(e).Some?
    ensures FirstChoice(Sources(e), k)
    ensures ExtractFromElement(e).value.imageUrl == Sources(e)[k].s
  {
    if Truthy(e.src) {
      k := 0;
    } else if Truthy(e.dataSrc) {
      k := 1;
    } else {
      k := 2;
    }
    ImageUrlIsFirstNonEmpty(e, k);
  }

  /** Without any non-empty source nothing is extracted. */
  lemma NoUrlNoRecord(e: ImgElement)
    requires forall k :: 0 <= k < |Sources(e)| ==> !Truthy(Sources(e)[k])
    ensures ExtractFromElement(e).None?
  {
    assert !Truthy(Sources(e)[0]) && !Truthy(Sources(e)[1]) && !Truthy(Sources(e)[2]);
  }

  /** Reads after the first non-empty source do not happen, so they cannot
      fail the extraction. */
  lemma LaterSourcesNotRead(e: ImgElement, a: Attr, b: Attr)
    requires Truthy(e.src)
    ensures ExtractFromElement(e) == ExtractFromElement(e.(dataSrc := a, dataLazySrc := b))
  {
  }

  /** `j` is the position of the last `|` of `s`. */
  predicate LastBar(s: string, j: int)
  {
    0 <= j < |s| && s[j] == '|' && '|' !in s[j + 1..]
  }

  /** `r` is `s.strip()`: `s` with the whitespace around `r` removed, and `r`
      neither starts nor ends with whitespace. */
  ghost predicate IsStripOf(s: string, r: string)
  {
    (exists i :: StrippedAt(s, r, i)) && (r != [] ==> !IsSpace(r[0]) && !IsSpace(r[|r| - 1]))
  }

  /** With a `|` in the alt text, the brand is the text after the last `|`
      with surrounding whitespace stripped; otherwise it is "Unknown". */
  lemma BrandFromAltText(e: ImgElement)
    requires ExtractFromElement(e).Some?
    ensures var brand := ExtractFromElement(e).value.brand;
            && (e.alt.Text? && '|' in e.alt.s ==>
                  exists j :: LastBar(e.alt.s, j) && IsStripOf(e.alt.s[j + 1..], brand))
            && (e.alt.Missing? || (e.alt.Text? && '|' !in e.alt.s) ==> brand == Models.UnknownBrand)
  {
    if e.alt.Text? && '|' in e.alt.s {
      var a := e.alt.s;
      var tail := AfterLast(a, '|');
      var j := |a| - |tail| - 1;
      assert a[j + 1..] == tail;
      assert LastBar(a, j);
      assert IsStripOf(a[j + 1..], Strip(tail));
    }
  }
}
