/** The product record of scraper/models.py: the raw catalog item as the
    GraphQL listing returns it, the `Product` dataclass, the mapping
    `from_api_response` and the dictionary form `to_dict`. */
module Models {
  import opened Options
  import opened Values

  /** One element of `products` in a listing response. A key that is absent
      from the JSON object is `None`. */
  datatype RawItem = RawItem(
    displayImages: Option<seq<string>>,
    mainPrice: Option<int>,      // minor currency units (cents)
    designer: Option<string>,
    name: Option<string>,
    sku: Option<string>,
    slug: Option<string>,
    color: Option<string>,
    description: Option<string>,
    hasStock: Option<bool>)

  /** The `Product` dataclass; `price` is in major units (dollars). */
  datatype Product = Product(
    imageUrl: string,
    brand: string,
    name: string,
    price: Option<real>,
    sku: string,
    slug: string,
    color: string,
    description: string,
    hasStock: bool)

  const UnknownBrand := "Unknown"

  /** The item has a usable first display image (a non-empty string). */
  predicate HasMainImage(item: RawItem)
  {
    item.displayImages.Some? && |item.displayImages.value| > 0 && item.displayImages.value[0] != ""
  }

  /** `mainPrice / 100 if mainPrice else None`: cents to dollars, where an
      absent or zero price means "no price". */
  function PriceOf(mainPrice: Option<int>): (r: Option<real>)
    ensures r.None? <==> mainPrice.None? || mainPrice.value == 0
    ensures r.Some? ==> r.value * 100.0 == mainPrice.value as real && r.value != 0.0
  {
    match mainPrice
    case Some(m) => if m == 0 then None else Some(m as real / 100.0)
    case None => None
  }

  /** `Product.from_api_response`. */
  function FromApiResponse(item: RawItem): (r: Option<Product>)
    ensures r.None? <==> !HasMainImage(item)
    ensures r.Some? ==> r.value.imageUrl == item.displayImages.value[0] && r.value.imageUrl != ""
    ensures r.Some? ==> r.value.price == PriceOf(item.mainPrice)
    ensures r.Some? ==> r.value.brand == item.designer.GetOr(UnknownBrand)
    ensures r.Some? ==> && r.value.name == item.name.GetOr("")
                        && r.value.sku == item.sku.GetOr("")
                        && r.value.slug == item.slug.GetOr("")
                        && r.value.color == item.color.GetOr("")
                        && r.value.description == item.description.GetOr("")
                        && r.value.hasStock == item.hasStock.GetOr(false)
  {
    var images := item.displayImages.GetOr([]);
    var imageUrl := if |images| > 0 then images[0] else "";
    if imageUrl == "" then None
    else
      Some(Product(
        imageUrl := imageUrl,
        brand := item.designer.GetOr(UnknownBrand),
        name := item.name.GetOr(""),
        price := PriceOf(item.mainPrice),
        sku := item.sku.GetOr(""),
        slug := item.slug.GetOr(""),
        color := item.color.GetOr(""),
        description := item.description.GetOr(""),
        hasStock := item.hasStock.GetOr(false)))
  }

  /** Only the first display image matters: items that agree on it and on every
      other field map to the same product, whatever images follow it. */
  lemma LaterImagesIgnored(item: RawItem, extra: seq<string>)
    requires HasMainImage(item)
    ensures FromApiResponse(item.(displayImages := Some(item.displayImages.value + extra)))
            == FromApiResponse(item)
  {
  }

  /** A mapped price converts back to the cents it came from. */
  lemma PriceIsCentsOverHundred(item: RawItem)
    requires FromApiResponse(item).Some? && FromApiResponse(item).value.price.Some?
    ensures FromApiResponse(item).value.price.value * 100.0 == item.mainPrice.value as real
  {
  }

  /** An item with only a display image gets every documented default. */
  lemma DefaultsForAbsentKeys(url: string)
    requires url != ""
    ensures FromApiResponse(RawItem(Some([url]), None, None, None, None, None, None, None, None))
            == Some(Product(url, "Unknown", "", None, "", "", "", "", false))
  {
  }

  /** The nine keys of `to_dict`. */
  const ProductKeys: set<string> :=
    {"image_url", "brand", "name", "price", "sku", "slug", "color", "description", "has_stock"}

  /** `Product.to_dict`. */
  function ToDict(p: Product): (d: Dict)
    ensures d.Keys == ProductKeys
    ensures FromDict(d) == Some(p)
  {
    map[
      "image_url" := VStr(p.imageUrl),
      "brand" := VStr(p.brand),
      "name" := VStr(p.name),
      "price" := (match p.price case Some(x) => VReal(x) case None => VNull),
      "sku" := VStr(p.sku),
      "slug" := VStr(p.slug),
      "color" := VStr(p.color),
      "description" := VStr(p.description),
      "has_stock" := VBool(p.hasStock)]
  }

  /** Reads a product back from a dictionary of the shape `to_dict` produces:
      exactly the nine keys, strings where strings are stored, a real or
      `None` for the price and a boolean for the stock flag. */
  function FromDict(d: Dict): Option<Product>
  {
    if d.Keys != ProductKeys then None
    else if !(d["image_url"].VStr? && d["brand"].VStr? && d["name"].VStr? && d["sku"].VStr?
              && d["slug"].VStr? && d["color"].VStr? && d["description"].VStr?
              && (d["price"].VReal? || d["price"].VNull?) && d["has_stock"].VBool?) then None
    else
      Some(Product(
        imageUrl := d["image_url"].s,
        brand := d["brand"].s,
        name := d["name"].s,
        price := if d["price"].VReal? then Some(d["price"].r) else None,
        sku := d["sku"].s,
        slug := d["slug"].s,
        color := d["color"].s,
        description := d["description"].s,
        hasStock := d["has_stock"].b))
  }

  /** The other half of the round trip: every dictionary `FromDict` accepts is
      the `to_dict` of the product it reads. */
  lemma ToDictOfFromDict(d: Dict)
    requires FromDict(d).Some?
    ensures ToDict(FromDict(d).value) == d
  {
    var t := ToDict(FromDict(d).value);
    assert t.Keys == d.Keys;
    forall k | k in d
      ensures t[k] == d[k]
    {
    }
  }

  /** `to_dict` loses nothing: different products give different dictionaries. */
  lemma ToDictInjective(p: Product, q: Product)
    requires ToDict(p) == ToDict(q)
    ensures p == q
  {
    assert FromDict(ToDict(p)) == Some(p);
  }
}
