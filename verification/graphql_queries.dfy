/** The listing query of scraper/graphql_queries.py: the variables the
    query declares and `build_listing_variables`, which fills them. */
module GraphqlQueries {
  import opened Options
  import opened Values

  /** One `$name: Type` declaration of an operation. */
  datatype Param = Param(name: string, gqlType: string)

  /** The variables `PRODUCT_LISTING_QUERY` declares, in declaration order. */
  const ListingParams: seq<Param> := [
    Param("filtersQueryParams", "String"),
    Param("page", "Int"),
    Param("size", "Int"),
    Param("slug", "String"),
    Param("sort", "String")]

  /** The names of the declared variables. */
  function DeclaredNames(ps: seq<Param>): set<string>
    decreases |ps|
  {
    if ps == [] then {} else {ps[0].name} + DeclaredNames(ps[1..])
  }

  const ListingNames: set<string> := {"page", "size", "slug", "sort", "filtersQueryParams"}

  lemma ListingNamesDeclared()
    ensures DeclaredNames(ListingParams) == ListingNames
  {
    assert DeclaredNames(ListingParams[4..]) == {"sort"};
    assert DeclaredNames(ListingParams[3..]) == {"slug", "sort"};
    assert DeclaredNames(ListingParams[2..]) == {"size", "slug", "sort"};
    assert DeclaredNames(ListingParams[1..]) == {"page", "size", "slug", "sort"};
  }

  /** A value a nullable GraphQL scalar of type `t` accepts. */
  predicate Fits(v: Value, t: string)
  {
    v.VNull? || (t == "Int" && v.VInt?) || (t == "String" && v.VStr?)
  }

  /** The arguments of `build_listing_variables`. */
  datatype ListingArgs = ListingArgs(slug: string, page: int, size: int, sort: Option<string>, filters: string)

  /** `build_listing_variables`: one entry per declared variable, each holding
      its argument unchanged (`filters` under `filtersQueryParams`); nothing is
      validated, so a zero or negative page is passed through. */
  function BuildListingVariables(slug: string, page: int := 1, size: int := 60,
                                 sort: Option<string> := None, filters: string := ""): (v: Dict)
    ensures v.Keys == ListingNames
    ensures ReadListingVariables(v) == Some(ListingArgs(slug, page, size, sort, filters))
  {
    var sortValue := match sort case Some(s) => VStr(s) case None => VNull;
    var v := map[
      "page" := VInt(page),
      "size" := VInt(size),
      "slug" := VStr(slug),
      "sort" := sortValue,
      "filtersQueryParams" := VStr(filters)];
    assert v.Keys == ListingNames;
    assert v["page"] == VInt(page) && v["size"] == VInt(size) && v["slug"] == VStr(slug);
    assert v["sort"] == sortValue && v["filtersQueryParams"] == VStr(filters);
    v
  }

  /** Recovers the arguments from a variables dictionary of the shape
      `build_listing_variables` produces. */
  function ReadListingVariables(v: Dict): Option<ListingArgs>
  {
    if v.Keys != ListingNames then None
    else if !(v["page"].VInt? && v["size"].VInt? && v["slug"].VStr?
              && (v["sort"].VStr? || v["sort"].VNull?) && v["filtersQueryParams"].VStr?) then None
    else
      Some(ListingArgs(
        v["slug"].s, v["page"].i, v["size"].i,
        if v["sort"].VStr? then Some(v["sort"].s) else None,
        v["filtersQueryParams"].s))
  }

  /** Every dictionary `ReadListingVariables` accepts is built by
      `build_listing_variables` from the arguments it reads. */
  lemma BuildOfRead(v: Dict)
    requires ReadListingVariables(v).Some?
    ensures var a := ReadListingVariables(v).value;
            BuildListingVariables(a.slug, a.page, a.size, a.sort, a.filters) == v
  {
    var a := ReadListingVariables(v).value;
    var w := BuildListingVariables(a.slug, a.page, a.size, a.sort, a.filters);
    assert w.Keys == v.Keys;
    forall k | k in v
      ensures w[k] == v[k]
    {
    }
  }

  /** The dictionary supplies exactly the variables the query declares, each
      with a value of the declared type. */
  lemma VariablesMatchDeclaration(slug: string, page: int, size: int, sort: Option<string>, filters: string)
    ensures var v := BuildListingVariables(slug, page, size, sort, filters);
            && v.Keys == DeclaredNames(ListingParams)
            && forall i :: 0 <= i < |ListingParams| ==> Fits(v[ListingParams[i].name], ListingParams[i].gqlType)
  {
    ListingNamesDeclared();
    var v := BuildListingVariables(slug, page, size, sort, filters);
    forall i | 0 <= i < |ListingParams|
      ensures Fits(v[ListingParams[i].name], ListingParams[i].gqlType)
    {
      assert ListingParams[i] in ListingParams;
    }
  }

  /** The defaults: first page, 60 items, no sort, no filters. */
  lemma ListingDefaults(slug: string)
    ensures ReadListingVariables(BuildListingVariables(slug))
            == Some(ListingArgs(slug, 1, 60, None, ""))
  {
  }
}
