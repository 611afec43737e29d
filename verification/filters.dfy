/** The client-side filters both scrapers apply to each candidate product:
    a brand filter and a maximum-price filter, each switched off by a
    falsy argument (Python truthiness). */
module Filters {
  import opened Options
  import opened Text

  /** Truthiness of an optional string: `None` and `""` are false. */
  predicate TruthyText(s: Option<string>)
  {
    s.Some? && s.value != ""
  }

  /** Truthiness of an optional number: `None` and `0` are false. */
  predicate TruthyAmount(x: Option<real>)
  {
    x.Some? && x.value != 0.0
  }

  /** `not (brand_filter and brand_filter.lower() not in brand.lower())`. */
  predicate BrandAdmits(brandFilter: Option<string>, brand: string)
  {
    !TruthyText(brandFilter) || Contains(Lower(brand), Lower(brandFilter.value))
  }

  /** `not (max_price and price and price > max_price)`. */
  predicate PriceAdmits(maxPrice: Option<real>, price: Option<real>)
  {
    !(TruthyAmount(maxPrice) && TruthyAmount(price) && price.value > maxPrice.value)
  }

  /** The brand filter is a substring test, not an equality test: any brand
      that contains the filter text, in any letter case, passes. */
  lemma BrandFilterMatchesInfix(brandFilter: string, before: string, middle: string, after: string)
    requires Lower(middle) == Lower(brandFilter)
    ensures BrandAdmits(Some(brandFilter), before + middle + after)
  {
    LowerAppend(before + middle, after);
    LowerAppend(before, middle);
    ContainsSelf(Lower(middle));
    ContainsInfix(Lower(before), Lower(middle), Lower(after), Lower(brandFilter));
  }

  /** Letter case of the brand does not matter. */
  lemma BrandFilterIgnoresCase(brandFilter: Option<string>, brand: string)
    ensures BrandAdmits(brandFilter, brand) == BrandAdmits(brandFilter, Lower(brand))
  {
    LowerIdempotent(brand);
  }

  /** An absent or empty brand filter admits every brand. */
  lemma BrandFilterOff(brandFilter: Option<string>, brand: string)
    requires brandFilter == None || brandFilter == Some("")
    ensures BrandAdmits(brandFilter, brand)
  {
  }

  /** With a set, non-zero maximum, an admitted price is missing, zero, or at
      most the maximum; a maximum of `None` or `0` admits every price. */
  lemma PriceFilterMeaning(maxPrice: Option<real>, price: Option<real>)
    ensures TruthyAmount(maxPrice) ==>
              (PriceAdmits(maxPrice, price) <==> price.None? || price.value == 0.0 || price.value <= maxPrice.value)
    ensures !TruthyAmount(maxPrice) ==> PriceAdmits(maxPrice, price)
  {
  }
}
