/**
 * `EP_API::format_args`: translating WordPress query arguments into an
 * Elasticsearch request body.
 *
 * The arguments are typed here: an `Option` field is `None` exactly when PHP's
 * `isset` is false for that key (absent or null). The output is typed as
 * well: an `Option` field of `QueryDocument` is `None` exactly when the key is
 * missing from the PHP array the source returns.
 */
module QueryTranslator {
  import opened Wrappers
  import opened PhpValues

  /** An argument that is a single string or a list, read through PHP's `(array)` cast. */
  datatype ArgList = Scalar(s: string) | List(items: seq<string>)

  /** One entry of `tax_query`: an array with `taxonomy`, `field` and `terms`, or anything else. */
  datatype TaxQueryItem =
    | TaxClause(taxonomy: Option<string>, field: Option<string>, terms: Option<ArgList>)
      /** A non-array entry, such as the `relation` string: PHP reads a one-character
          string offset (or null) for its `field`, which is never 'slug'. */
    | NotAnArray

  /** The query arguments `format_args` reads; empty sequences stand for absent lists. */
  datatype QueryArgs = QueryArgs(
    s: Option<string>,
    postType: Option<ArgList>,
    taxQuery: seq<TaxQueryItem>,
    searchTax: seq<string>,
    searchMeta: seq<string>,
    offset: Option<int>,
    postsPerPage: Option<int>,
    paged: Option<int>,
    aggs: Option<Value>)

  /** `term` matches a field against one value, `terms` against several. */
  datatype MatchKind = MatchTerm | MatchTerms

  /** A clause of the conjunctive filter. */
  datatype FilterClause =
      /** `[ kind => [ field => values ] ]` */
    | Match(kind: MatchKind, field: string, values: seq<string>)
      /** `[ 'bool' => [ 'must' => clauses ] ]` */
    | MustAll(clauses: seq<FilterClause>)

  /** `[ 'and' => conjuncts ]` */
  datatype Filter = Filter(conjuncts: seq<FilterClause>)

  datatype SortClause = SortClause(field: string, order: string)

  /** The clause found at `query.bool.must.fuzzy_like_this`. */
  datatype FuzzyLikeThis = FuzzyLikeThis(fields: seq<string>, likeText: string, minSimilarity: real)

  /** The one entry of the `aggs` block, keyed by `name`. */
  datatype Aggregation =
      /** `[ name => [ 'filter' => filter, 'aggs' => aggs ] ]` */
    | FilteredAggregation(name: Value, filter: Filter, aggs: Value)
      /** `[ name => spec ]`: the whole `aggs` argument, copied. */
    | CopiedAggregation(name: Value, spec: Value)

  /** The request body: `query`, `filter` and `aggs` may be missing. */
  datatype QueryDocument = QueryDocument(
    from: int,
    size: int,
    sort: seq<SortClause>,
    query: Option<FuzzyLikeThis>,
    filter: Option<Filter>,
    aggs: Option<Aggregation>)

  const DefaultSearchFields: seq<string> := ["post_title", "post_excerpt", "post_content"]
  /** The similarity threshold, an opaque constant of the request (0.75). */
  const MinSimilarity: real := 0.75
  const DefaultAggregationName: string := "aggregation_name"
  const TypeField: string := "post_type.raw"

  // ----- PHP readings of the arguments -----

  /** `(array) $v`: a string becomes a one-element list. */
  function AsArray(a: ArgList): (r: seq<string>)
    ensures a.Scalar? ==> r == [a.s]
    ensures a.List? ==> r == a.items
  {
    match a
    case Scalar(s) => [s]
    case List(items) => items
  }

  /** PHP's `empty` on a string. */
  predicate StrEmpty(s: string) {
    s == "" || s == "0"
  }

  /** PHP's `empty` on a string or list argument. */
  predicate ArgEmpty(a: ArgList) {
    match a
    case Scalar(s) => StrEmpty(s)
    case List(items) => items == []
  }

  // ----- The specification of each part of the body -----

  /** A `tax_query` entry yields a clause when its `field` is 'slug' and its `terms` are not empty. */
  predicate SlugClause(item: TaxQueryItem) {
    item.TaxClause? && item.field == Some("slug") && item.terms.Some? && !ArgEmpty(item.terms.value)
  }

  /** The clause a slug entry yields; a missing taxonomy reads as "". */
  function SlugMatch(item: TaxQueryItem): (c: FilterClause)
    requires SlugClause(item)
    ensures c.Match? && c.kind == MatchTerms
    ensures c.field == "terms." + item.taxonomy.GetOr("") + ".slug"
    ensures c.values == AsArray(item.terms.value)
  {
    Match(MatchTerms, "terms." + item.taxonomy.GetOr("") + ".slug", AsArray(item.terms.value))
  }

  /** The taxonomy clauses, in the order of the entries that yield them. */
  function TaxClauses(items: seq<TaxQueryItem>): seq<FilterClause> {
    if |items| == 0 then []
    else
      var last := items[|items| - 1];
      TaxClauses(items[..|items| - 1]) + (if SlugClause(last) then [SlugMatch(last)] else [])
  }

  /** The taxonomy part of the filter: one `bool.must` group, or nothing when no clause was produced. */
  function TaxGroup(items: seq<TaxQueryItem>): (g: seq<FilterClause>)
    ensures |g| <= 1
    ensures g == [] <==> TaxClauses(items) == []
    ensures g != [] ==> g[0] == MustAll(TaxClauses(items))
  {
    var clauses := TaxClauses(items);
    if clauses == [] then [] else [MustAll(clauses)]
  }

  /** The post type clause: `term` for fewer than two types (none included), `terms` otherwise. */
  function TypeClause(types: seq<string>): (c: FilterClause)
    ensures c.Match? && c.field == TypeField && c.values == types
    ensures c.kind == MatchTerm <==> |types| < 2
  {
    Match(if |types| < 2 then MatchTerm else MatchTerms, TypeField, types)
  }

  /**
   * The local `$filter`: the taxonomy group first, then the post type clause
   * when `post_type` is set.
   */
  function LocalFilter(args: QueryArgs): (f: Filter)
    ensures |f.conjuncts| == |TaxGroup(args.taxQuery)| + (if args.postType.Some? then 1 else 0)
    ensures TaxClauses(args.taxQuery) != [] <==> |f.conjuncts| > 0 && f.conjuncts[0].MustAll?
    ensures forall c :: c in f.conjuncts && c.MustAll? ==> c.clauses == TaxClauses(args.taxQuery)
    ensures args.postType.Some? ==> f.conjuncts[|f.conjuncts| - 1] == TypeClause(AsArray(args.postType.value))
  {
    Filter(TaxGroup(args.taxQuery) + (if args.postType.Some? then [TypeClause(AsArray(args.postType.value))] else []))
  }

  function TaxNameFields(taxonomies: seq<string>): seq<string> {
    seq(|taxonomies|, i requires 0 <= i < |taxonomies| => "terms." + taxonomies[i] + ".name")
  }

  function MetaFields(keys: seq<string>): seq<string> {
    seq(|keys|, i requires 0 <= i < |keys| => "post_meta." + keys[i])
  }

  /**
   * The fields the fuzzy clause searches: title, excerpt and content, then
   * the name of each `search_tax` taxonomy, then each `search_meta` key.
   */
  function SearchFields(args: QueryArgs): (fields: seq<string>)
    ensures |fields| == 3 + |args.searchTax| + |args.searchMeta|
    ensures fields[..3] == DefaultSearchFields
    ensures forall i :: 0 <= i < |args.searchTax| ==> fields[3 + i] == "terms." + args.searchTax[i] + ".name"
    ensures forall j :: 0 <= j < |args.searchMeta| ==>
      fields[3 + |args.searchTax| + j] == "post_meta." + args.searchMeta[j]
  {
    DefaultSearchFields + TaxNameFields(args.searchTax) + MetaFields(args.searchMeta)
  }

  /** The first hit of page `paged`: pages 1 and below start at 0; an unset page size counts as 0. */
  function PageStart(postsPerPage: Option<int>, paged: int): int {
    postsPerPage.GetOr(0) * (if paged <= 1 then 0 else paged - 1)
  }

  /** An aggregation is emitted only when `aggs` is set and its own `aggs` entry is not empty. */
  predicate AggregationRequested(args: QueryArgs) {
    args.aggs.Some? && !Empty(Index(args.aggs.value, "aggs"))
  }

  function AggregationName(agg: Value): (name: Value)
    ensures !Empty(name)
    ensures !Empty(Index(agg, "name")) ==> name == Index(agg, "name")
    ensures Empty(Index(agg, "name")) ==> name == Str(DefaultAggregationName)
  {
    if !Empty(Index(agg, "name")) then Index(agg, "name") else Str(DefaultAggregationName)
  }

  /** `use-filter` is set and is not the boolean false. */
  predicate UsesFilter(agg: Value) {
    Isset(agg, "use-filter") && Index(agg, "use-filter") != Bool(false)
  }

  /** The aggregation block for a request that asks for one. */
  function AggregationFor(args: QueryArgs): Aggregation
    requires AggregationRequested(args)
  {
    var agg := args.aggs.value;
    if UsesFilter(agg) then FilteredAggregation(AggregationName(agg), LocalFilter(args), Index(agg, "aggs"))
    else CopiedAggregation(AggregationName(agg), agg)
  }

  // ----- The PHP array a filter is -----

  function KindKey(kind: MatchKind): string {
    match kind
    case MatchTerm => "term"
    case MatchTerms => "terms"
  }

  function ClauseValue(c: FilterClause): Value
    decreases c
  {
    match c
    case Match(kind, field, values) =>
      Arr([(StrKey(KindKey(kind)), Arr([(StrKey(field), StrList(values))]))])
    case MustAll(clauses) =>
      Arr([(StrKey("bool"), Arr([(StrKey("must"),
        Arr(seq(|clauses|, i requires 0 <= i < |clauses| => (IntKey(i), ClauseValue(clauses[i])))))]))])
  }

  function FilterValue(f: Filter): Value {
    Arr([(StrKey("and"),
      Arr(seq(|f.conjuncts|, i requires 0 <= i < |f.conjuncts| => (IntKey(i), ClauseValue(f.conjuncts[i])))))])
  }

  // ----- format_args -----

  /** The loop over `tax_query` (classes/class-ep-api.php:709-716). */
  method CollectTaxClauses(items: seq<TaxQueryItem>) returns (taxFilter: seq<FilterClause>)
    ensures taxFilter == TaxClauses(items)
  {
    taxFilter := [];
    var i := 0;
    while i < |items|
      invariant 0 <= i <= |items|
      invariant taxFilter == TaxClauses(items[..i])
    {
      assert items[..i + 1][..i] == items[..i];
      match items[i] {
        case TaxClause(taxonomy, field, terms) =>
          if terms.Some? && !ArgEmpty(terms.value) && field.Some? && !StrEmpty(field.value) && field.value == "slug" {
            taxFilter := taxFilter + [Match(MatchTerms, "terms." + taxonomy.GetOr("") + ".slug", AsArray(terms.value))];
          }
        case NotAnArray =>
      }
      i := i + 1;
    }
    assert items[..i] == items;
  }

  /** The loops over `search_tax` and `search_meta` that extend the field list (classes/class-ep-api.php:690-743). */
  method CollectSearchFields(searchTax: seq<string>, searchMeta: seq<string>) returns (searchFields: seq<string>)
    ensures searchFields == DefaultSearchFields + TaxNameFields(searchTax) + MetaFields(searchMeta)
  {
    searchFields := DefaultSearchFields;
    if |searchTax| > 0 {
      var i := 0;
      while i < |searchTax|
        invariant 0 <= i <= |searchTax|
        invariant searchFields == DefaultSearchFields + TaxNameFields(searchTax[..i])
      {
        searchFields := searchFields + ["terms." + searchTax[i] + ".name"];
        i := i + 1;
      }
      assert searchTax[..i] == searchTax;
    }
    ghost var withTaxonomies := searchFields;
    if |searchMeta| > 0 {
      var i := 0;
      while i < |searchMeta|
        invariant 0 <= i <= |searchMeta|
        invariant searchFields == withTaxonomies + MetaFields(searchMeta[..i])
      {
        searchFields := searchFields + ["post_meta." + searchMeta[i]];
        i := i + 1;
      }
      assert searchMeta[..i] == searchMeta;
    }
  }

  /** The aggregation block (classes/class-ep-api.php:806-825), given the local `$filter`. */
  method BuildAggregation(args: QueryArgs, filter: Filter) returns (aggs: Option<Aggregation>)
    requires filter == LocalFilter(args)
    ensures aggs.Some? <==> AggregationRequested(args)
    ensures AggregationRequested(args) ==> aggs.value == AggregationFor(args)
  {
    aggs := None;
    if args.aggs.Some? && !Empty(Index(args.aggs.value, "aggs")) {
      var aggObj := args.aggs.value;
      var aggName := if !Empty(Index(aggObj, "name")) then Index(aggObj, "name") else Str(DefaultAggregationName);
      FilterNeverEmpty(filter);
      if Isset(aggObj, "use-filter") && Index(aggObj, "use-filter") != Bool(false) && !Empty(FilterValue(filter)) {
        aggs := Some(FilteredAggregation(aggName, filter, Index(aggObj, "aggs")));
      } else {
        aggs := Some(CopiedAggregation(aggName, aggObj));
      }
    }
  }

  /** `EP_API::format_args`, with the `ep_search_fields`, `ep_min_similarity` and `ep_formatted_args` hooks as identity. */
  method FormatArgs(args: QueryArgs, defaultPageSize: int) returns (doc: QueryDocument)
    ensures doc.sort == [SortClause("_score", "desc")]
    ensures doc.size == args.postsPerPage.GetOr(defaultPageSize)
    ensures doc.from == if args.paged.Some? then PageStart(args.postsPerPage, args.paged.value) else args.offset.GetOr(0)
    ensures doc.query.Some? <==> args.s.Some?
    ensures args.s.Some? ==> doc.query.value == FuzzyLikeThis(SearchFields(args), args.s.value, MinSimilarity)
    ensures doc.filter.Some? <==> args.postType.Some?
    ensures args.postType.Some? ==> doc.filter.value == LocalFilter(args)
    ensures doc.aggs.Some? <==> AggregationRequested(args)
    ensures AggregationRequested(args) ==> doc.aggs.value == AggregationFor(args)
  {
    var from := 0;
    var size := defaultPageSize;
    var conjuncts: seq<FilterClause> := [];

    if |args.taxQuery| > 0 {
      var taxFilter := CollectTaxClauses(args.taxQuery);
      if taxFilter != [] {
        conjuncts := conjuncts + [MustAll(taxFilter)];
      }
    }
    assert conjuncts == TaxGroup(args.taxQuery);

    var searchFields := CollectSearchFields(args.searchTax, args.searchMeta);

    var fuzzy := FuzzyLikeThis(searchFields, "", MinSimilarity);
    var query: Option<FuzzyLikeThis> := None;
    if args.s.Some? {
      fuzzy := fuzzy.(likeText := args.s.value);
      query := Some(fuzzy);
    }

    var docFilter: Option<Filter> := None;
    if args.postType.Some? {
      var postTypes := AsArray(args.postType.value);
      var kind := MatchTerms;
      if |postTypes| < 2 {
        kind := MatchTerm;
      }
      conjuncts := conjuncts + [Match(kind, TypeField, postTypes)];
      docFilter := Some(Filter(conjuncts));
    }

    assert Filter(conjuncts) == LocalFilter(args);

    if args.offset.Some? {
      from := args.offset.value;
    }
    if args.postsPerPage.Some? {
      size := args.postsPerPage.value;
    }
    if args.paged.Some? {
      var paged := if args.paged.value <= 1 then 0 else args.paged.value - 1;
      // an unset posts_per_page reads as null, and null * paged is 0
      from := args.postsPerPage.GetOr(0) * paged;
    }

    var aggs := BuildAggregation(args, Filter(conjuncts));

    doc := QueryDocument(from, size, [SortClause("_score", "desc")], query, docFilter, aggs);
  }

  // ----- Lemmas -----

  /** Taxonomy clauses of consecutive entries concatenate: the order of the entries is kept. */
  lemma {:induction false} TaxClausesAppend(a: seq<TaxQueryItem>, b: seq<TaxQueryItem>)
    ensures TaxClauses(a + b) == TaxClauses(a) + TaxClauses(b)
  {
    if |b| == 0 {
      assert a + b == a;
    } else {
      var ab := a + b;
      assert ab[..|ab| - 1] == a + b[..|b| - 1];
      assert ab[|ab| - 1] == b[|b| - 1];
      TaxClausesAppend(a, b[..|b| - 1]);
    }
  }

  /** A clause is produced exactly for each entry whose field is 'slug' and whose terms are not empty. */
  lemma {:induction false} TaxClausesMembership(items: seq<TaxQueryItem>, c: FilterClause)
    ensures c in TaxClauses(items) <==>
      exists i :: 0 <= i < |items| && SlugClause(items[i]) && c == SlugMatch(items[i])
  {
    if |items| > 0 {
      var init := items[..|items| - 1];
      TaxClausesMembership(init, c);
      if c in TaxClauses(init) {
        var i :| 0 <= i < |init| && SlugClause(init[i]) && c == SlugMatch(init[i]);
        assert items[i] == init[i];
      }
      if exists i :: 0 <= i < |items| && SlugClause(items[i]) && c == SlugMatch(items[i]) {
        var i :| 0 <= i < |items| && SlugClause(items[i]) && c == SlugMatch(items[i]);
        if i < |items| - 1 {
          assert init[i] == items[i];
        }
      }
    }
  }

  /** Entries of a kind other than 'slug' never reach the filter: without a slug entry there is no taxonomy group. */
  lemma TaxGroupWithoutSlugEntries(items: seq<TaxQueryItem>)
    requires forall i :: 0 <= i < |items| ==> !SlugClause(items[i])
    ensures TaxGroup(items) == []
  {
    if TaxClauses(items) != [] {
      var c := TaxClauses(items)[0];
      TaxClausesMembership(items, c);
    }
  }

  /** The PHP array `$filter` always holds the `and` key, so `! empty( $filter )` always holds. */
  lemma FilterNeverEmpty(f: Filter)
    ensures !Empty(FilterValue(f))
  {
  }

  /** Paging: pages 1 and below start at 0, and each later page starts one page size further on. */
  lemma PagesTile(postsPerPage: int, paged: int)
    ensures paged <= 1 ==> PageStart(Some(postsPerPage), paged) == 0
    ensures paged >= 1 ==> PageStart(Some(postsPerPage), paged + 1) == PageStart(Some(postsPerPage), paged) + postsPerPage
    ensures PageStart(None, paged) == 0
  {
    if paged >= 1 {
      calc {
        PageStart(Some(postsPerPage), paged + 1);
        postsPerPage * paged;
        postsPerPage * (paged - 1) + postsPerPage;
      }
    }
  }
}
