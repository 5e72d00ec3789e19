# ElasticPress `EP_API`, modelled in Dafny

This project models the logic of `EP_API` in ElasticPress, the WordPress plugin
that mirrors posts into an Elasticsearch index and answers searches from it.
The HTTP and JSON plumbing is removed. What is left is how the class shapes data:

- `format_args` turns WordPress query arguments into an Elasticsearch request body.
- `parse_site_id` reads a site id out of an index name.
- `is_empty_search` and the hit loop of `search` turn a decoded search
  response into `found_posts` and `posts`.
- `prepare_post`, `prepare_terms` and `prepare_meta` build the document
  that is indexed.
- The status-code tests of the gateway methods decide which replies count
  as success, and `create_network_alias` builds an action list.

Modules:

| file | module | models |
|---|---|---|
| `wrappers.dfy` | `Wrappers` | `Option` |
| `php_values.dfy` | `PhpValues` | PHP values after `json_decode( ..., true )`: ordered key/value arrays, `isset`, `empty`, `$a[k] = v` |
| `site_ids.dfy` | `SiteIds` | `parse_site_id`: the regular expression `#^.*\-([0-9]+)$#` and PHP's `(int)` cast of a string |
| `query_translator.dfy` | `QueryTranslator` | `format_args` |
| `search_results.dfy` | `SearchResults` | `is_empty_search` and the hit loop of `search` |
| `document_mapper.dfy` | `DocumentMapper` | `prepare_post`, `prepare_terms`, `prepare_meta` |
| `gateway.dfy` | `Gateway` | the success tests of the HTTP methods, the `create_network_alias` action list, the replies of `get_post` and `delete_post` |

The class has no fields, so the source's loops become methods over local
sequences. The collecting loops (`CollectTaxClauses`, `CollectSearchFields`,
`SelectPublic`, `AddTerms`, `PrepareTerms`, `PrepareMeta`) are proved against
specification functions, and lemmas state the properties of those functions. The other methods (`FormatArgs`, `BuildAggregation`, `ReshapeHits`,
`Search`, `NetworkAliasActions`, `PreparePost`) state their results directly:
field by field, element by element, or through non-recursive functions such
as `LocalFilter` and `ReshapeHit`.

WordPress is passed in as a `Host` value whose fields are functions:
`get_userdata`, `get_the_title`, `get_permalink`, the `the_content` filters,
`get_object_taxonomies`, `get_the_terms`, `get_post_meta` and
`is_protected_meta`. The configured page size (`get_option(
'posts_per_page' )`) is a parameter of `FormatArgs`. The `apply_filters`
hooks are modelled as identity.

Where the code's behaviour is unexpected, the model follows the code:

- `delete_post` succeeds only when the reply has a non-empty `found`.
  Deleting a post that is not in the index therefore fails; it is not idempotent.
- The type filter matches on `post_type.raw`.
- With `paged` set and `posts_per_page` unset, `from` is 0, because PHP
  computes `null * n`.

## Model

| member | source | states |
|---|---|---|
| PhpValues.Put | classes/class-ep-api.php:127 | Assigning `$a[k] = v` makes `k` read as `v` and leaves every other key as it was. An existing key keeps its place; a new key is appended at the end. |
| SiteIds.Saturate | classes/class-ep-api.php:60 | The `(int)` cast leaves in-range values unchanged and takes an out-of-range value to the nearer 64-bit bound. |
| SiteIds.IntCast | classes/class-ep-api.php:60 | `(int)` of a string is always a 64-bit integer. |
| SiteIds.IntCastOfSpaces | classes/class-ep-api.php:60 | The empty string and a string of white space alone cast to 0: there are no digits to read. |
| SiteIds.IntCastAfterSpace | classes/class-ep-api.php:60 | Leading white space does not change the cast. |
| SiteIds.IntCastOfMinus | classes/class-ep-api.php:60 | A minus sign, digits, then a non-digit or the end: the negated value of the digits, clamped. |
| SiteIds.IntCastOfPlus | classes/class-ep-api.php:60 | A plus sign, digits, then a non-digit or the end: the value of the digits, clamped. |
| SiteIds.IntCastOfSpacedMinus | classes/class-ep-api.php:60 | White space, a minus sign and digits: the negated value of the digits, clamped. |
| SiteIds.IntCastOfSpacedPlus | classes/class-ep-api.php:60 | White space, a plus sign and digits: the value of the digits, clamped. |
| SiteIds.IntCastOfSpacedDigits | classes/class-ep-api.php:60 | White space and one or more digits: the value of the digits, clamped. |
| SiteIds.IntCastSignedExamples | classes/class-ep-api.php:60 | `" -5"` casts to -5 and `"+7"` to 7. |
| SiteIds.LeadingDigits | classes/class-ep-api.php:60 | The digits the cast reads are a prefix of the string and are all decimal digits. |
| SiteIds.SkipSpaceDropsLeadingSpace | classes/class-ep-api.php:60 | Before reading a number, the cast drops exactly the leading white space: every dropped character is white space, and the rest does not start with any. |
| SiteIds.LeadingDigitsOfDigits | classes/class-ep-api.php:60 | The cast reads a run of digits up to the first non-digit. |
| SiteIds.IntCastOfDigits | classes/class-ep-api.php:60 | A run of digits, followed by nothing or by a non-digit, casts to the clamped value of those digits. |
| SiteIds.IntCastOfNonNumeric | classes/class-ep-api.php:60 | A non-empty string that starts with neither white space, a sign nor a digit casts to 0. |
| SiteIds.LastDash | classes/class-ep-api.php:60 | The greedy `.*\-` stops at a position that holds a dash. |
| SiteIds.LastDashIsLast | classes/class-ep-api.php:60 | No dash follows the position the greedy match picks; when there is no such position, the string has no dash. |
| SiteIds.LastDashOfSuffix | classes/class-ep-api.php:60 | In `prefix-digits`, the last dash is the one before the digits, whatever dashes the prefix holds. |
| SiteIds.ReplaceSuffix | classes/class-ep-api.php:60 | `preg_replace` of the pattern by `$1`: a matched name becomes its captured digits, followed by the final line feed if there was one (`$` matches before it, so it is not replaced); an unmatched name is left as it is. |
| SiteIds.ParseSiteId | classes/class-ep-api.php:59-61 | A site id is always a 64-bit integer. |
| SiteIds.CapturedSuffixOfSuffix | classes/class-ep-api.php:60 | The pattern matches `prefix-digits`, with one or more digits and no line feed in the prefix, and with or without one final line feed; it captures exactly the final digits. |
| SiteIds.CapturedSuffixShape | classes/class-ep-api.php:60 | The pattern matches no other name: what it captures is one or more digits, and the name is a line-free prefix, a dash and those digits, with at most one final line feed. |
| SiteIds.ParseSiteIdUnmatched | classes/class-ep-api.php:59-61 | A name the pattern does not match is cast whole. |
| SiteIds.ParseSiteIdOfSuffix | classes/class-ep-api.php:59-61 | A name ending in a dash and one or more digits, with no line feed before the dash, yields the value of those digits, clamped to 64 bits. One final line feed, which `$` allows, changes nothing. |
| SiteIds.ParseSiteIdRoundTrip | classes/class-ep-api.php:59-61 | Naming an index `<prefix>-<site id>` and parsing the name gives the site id back, for a prefix with no line feed and a site id no greater than `PHP_INT_MAX`. (A prefix with a line feed, as in `a\nb-5`, is not matched and casts to 0.) |
| SiteIds.ParseSiteIdWithoutDash | classes/class-ep-api.php:59-61 | Without a dash the pattern does not match, and the whole name is cast. |
| SiteIds.ParseSiteIdOfPrefixed | classes/class-ep-api.php:59-61 | `prefix-7` gives 7. |
| SiteIds.ParseSiteIdIsGreedy | classes/class-ep-api.php:59-61 | Any name ending in `-12-34` (with no line feed) gives 34: only the digits after the last dash count. |
| SiteIds.ParseSiteIdOfPlainName | classes/class-ep-api.php:59-61 | `prefix` gives 0. |
| SiteIds.ParseSiteIdOfBareNumber | classes/class-ep-api.php:59-61 | `7` gives 7. |
| QueryTranslator.AsArray | classes/class-ep-api.php:711 | `(array)` turns a string into a one-element list and keeps a list as it is. |
| QueryTranslator.SlugMatch | classes/class-ep-api.php:712-714 | A slug entry gives a `terms` clause on `terms.<taxonomy>.slug` (a missing taxonomy reads as ""), whose values are the entry's `terms` cast to an array. |
| QueryTranslator.TaxGroup | classes/class-ep-api.php:718-720 | The taxonomy clauses become a single `bool.must` group, and no group at all when there are none. |
| QueryTranslator.TypeClause | classes/class-ep-api.php:774-785 | The type clause matches `post_type.raw` against the types. It is `term` exactly when there are fewer than two types (none included). |
| QueryTranslator.LocalFilter | classes/class-ep-api.php:686-788 | The local filter holds the taxonomy group first, when there is one, and the type clause last, when `post_type` is set. The group holds exactly the taxonomy clauses. |
| QueryTranslator.SearchFields | classes/class-ep-api.php:690-743 | The searched fields are title, excerpt and content, then `terms.<t>.name` for each `search_tax` entry in order, then `post_meta.<k>` for each `search_meta` key in order. |
| QueryTranslator.AggregationName | classes/class-ep-api.php:810-814 | The aggregation's name is never empty. It is the given `name` when that is non-empty, and `aggregation_name` otherwise. |
| QueryTranslator.CollectTaxClauses | classes/class-ep-api.php:709-716 | The `tax_query` loop collects exactly the clauses of the slug entries, in order. |
| QueryTranslator.CollectSearchFields | classes/class-ep-api.php:728-743 | The `search_tax` and `search_meta` loops extend the default fields as stated above. |
| QueryTranslator.BuildAggregation | classes/class-ep-api.php:806-825 | An aggregation block is produced exactly when `aggs.aggs` is non-empty. If `use-filter` is set and not false, it pairs the local filter with `aggs.aggs`; otherwise it copies the whole `aggs` argument. |
| QueryTranslator.PageStart | classes/class-ep-api.php:799-800 | `from` for a page: `posts_per_page * ( paged - 1 )`, with pages 1 and below counted as 0 and an unset `posts_per_page` read as null, which multiplies to 0. `PagesTile` states its properties. |
| QueryTranslator.FormatArgs | classes/class-ep-api.php:673-828 | The request has one `_score desc` sort. `size` is `posts_per_page`, else the configured size. `from` is the page start when `paged` is set, else `offset`, else 0. A `query` is present exactly when `s` is set, with `like_text = s` over the search fields. A `filter` is present exactly when `post_type` is set, and it is the local filter. `aggs` is present exactly when requested. |
| QueryTranslator.TaxClausesAppend | classes/class-ep-api.php:709-716 | The clauses of two runs of entries are the clauses of the first followed by those of the second. |
| QueryTranslator.TaxClausesMembership | classes/class-ep-api.php:710-714 | A clause is produced exactly when some entry has `field == 'slug'` and non-empty `terms`. |
| QueryTranslator.TaxGroupWithoutSlugEntries | classes/class-ep-api.php:718-720 | Without a slug entry nothing is added to the filter. |
| QueryTranslator.FilterNeverEmpty | classes/class-ep-api.php:817 | The local filter is never `empty`, because it always has its `and` key. So the `! empty( $filter )` test always passes. |
| QueryTranslator.PagesTile | classes/class-ep-api.php:798-801 | Pages 1 and below start at 0. Each later page starts `posts_per_page` after the one before. Without `posts_per_page`, every page starts at 0. |
| SearchResults.IsEmptySearch | classes/class-ep-api.php:144-159 | `is_empty_search`: true when the response is not an array, when `error` is set, or when `hits` is empty; false otherwise. `EmptySearchCases` states it case by case. |
| SearchResults.WithSiteId | classes/class-ep-api.php:126-127 | `$post['site_id'] = id` on a hit's `_source`: an array gets the key set in place or appended, null and false become `[ 'site_id' => id ]`, true and other scalars are left as they are. `WithSiteIdFields` states it. |
| SearchResults.ReshapeHit | classes/class-ep-api.php:125-128 | One post: the hit's `_source` with `site_id` set to `parse_site_id` of its `_index`. `ReshapeHitFields` states it. |
| SearchResults.ReshapeHits | classes/class-ep-api.php:125-129 | The hit loop yields one post per hit, in hit order. Each post is the hit's `_source` with `site_id` set from `_index`. |
| SearchResults.Search | classes/class-ep-api.php:104-134 | A transport error or an empty search gives `found_posts` 0 and no posts. Otherwise `found_posts` is `hits.total` and `posts` are the reshaped hits of `hits.hits`, in order. |
| SearchResults.WithSiteIdFields | classes/class-ep-api.php:127 | Setting `site_id` on an array keeps every other field; a source without one gets it as a new last entry. An existing `site_id` keeps its place. Null or false becomes the one-entry array `[ 'site_id' => id ]`. Other scalars are left as they are. |
| SearchResults.EmptySearchCases | classes/class-ep-api.php:144-159 | A response is an empty search exactly when it is not an array, has a non-null `error`, or has empty `hits`. |
| SearchResults.NonEmptyHitsWithoutList | classes/class-ep-api.php:114-131 | A response with no `error` whose `hits` is non-empty but has no `hits.hits` list is not an empty search, and it has no hits: `search` yields `hits.total` with no posts. |
| SearchResults.TotalOnlyResponse | classes/class-ep-api.php:114-131 | The response `[ 'hits' => [ 'total' => t ] ]` is such a response. |
| SearchResults.ReshapeHitFields | classes/class-ep-api.php:125-129 | A post in the result is its hit's `_source`, with `site_id` equal to the parsed `_index` and every other field as stored. |
| SearchResults.SearchRoundTrip | classes/class-ep-api.php:125-129 | A hit whose `_source` is a document built by `prepare_post` gives back the post's id, title and type, with the site id parsed from `_index`. |
| SearchResults.SearchRoundTripSiteId | classes/class-ep-api.php:125-129 | A hit from the index `<prefix>-<site id>` gives a post carrying that site id and its own post id. |
| DocumentMapper.PublicTaxonomies | classes/class-ep-api.php:584-588 | A taxonomy is selected exactly when it is public. |
| DocumentMapper.AppendToGroup | classes/class-ep-api.php:606-611 | Assigning `$terms[$taxonomy][] = $entry` appends the entry to that taxonomy's group, creating the group at the end, and changes no other group. A new taxonomy adds exactly one group at the end; an existing one leaves the keys in their order. Keys stay distinct. |
| DocumentMapper.SelectPublic | classes/class-ep-api.php:584-588 | The selection loop keeps the public taxonomies, in order. |
| DocumentMapper.AddTerms | classes/class-ep-api.php:605-612 | The inner loop adds each term of one taxonomy to the groups. |
| DocumentMapper.PrepareTerms | classes/class-ep-api.php:580-616 | `prepare_terms` groups the terms that `get_the_terms` gives for each public taxonomy, taken in order. |
| DocumentMapper.PrepareMeta | classes/class-ep-api.php:626-642 | `prepare_meta` keeps the unprotected meta entries in order. |
| DocumentMapper.PreparePost | classes/class-ep-api.php:529-570 | Every field of the document comes from its stated source. The author falls back to empty login and display name. The status is always `publish`. |
| DocumentMapper.DocumentHasNoSiteId | classes/class-ep-api.php:546-565 | The indexed document has no `site_id` key. |
| DocumentMapper.DocumentValueFields | classes/class-ep-api.php:546-565 | The encoded document holds the post's id, title, type and status under their keys. |
| DocumentMapper.GroupedByTaxonomy | classes/class-ep-api.php:598-613 | Each taxonomy's group holds exactly the entries of that taxonomy's terms, in order. There is a group for exactly the taxonomies that occur, and no taxonomy has two. |
| DocumentMapper.CollectedTermsOrigin | classes/class-ep-api.php:598-604 | Every collected term was returned by `get_the_terms` for one of the selected taxonomies. |
| DocumentMapper.DocumentTermsArePublic | classes/class-ep-api.php:584-604 | Every term in a document comes from a public taxonomy of the post's type. |
| DocumentMapper.UnprotectedMeta | classes/class-ep-api.php:635-639 | A meta entry is kept exactly when its key is not protected. Keys stay distinct. |
| Gateway.GetPostSource | classes/class-ep-api.php:203-213 | `get_post` returns the stored `_source` when `exists` or `found` is non-empty, and false when both are empty or the request failed. |
| Gateway.RefreshSucceeded | classes/class-ep-api.php:72-73 | `refresh_index` succeeds when the request did not fail and the code is set and is the integer 200. |
| Gateway.IsAlive | classes/class-ep-api.php:230-231 | `is_alive` holds when the request did not fail and the code is set and is the integer 200. |
| Gateway.MappingAccepted | classes/class-ep-api.php:513 | `put_mapping` succeeds when the request did not fail and the code is exactly 200. |
| Gateway.DeleteIndexAccepted | classes/class-ep-api.php:657 | `delete_index` succeeds when the request did not fail and the code is 200 or 404. |
| Gateway.DeletePostSucceeded | classes/class-ep-api.php:176-181 | `delete_post` succeeds when the request did not fail and the decoded reply has a non-empty `found`; the code is not looked at. |
| Gateway.AliasReplyAccepted | classes/class-ep-api.php:251 | The alias test as written: the request did not fail and `200 >= code && 300 > code`, with a missing code read as `''`, which passes both comparisons. |
| Gateway.AliasReplyAcceptedIntended | classes/class-ep-api.php:285 | The evident intent of the alias test: the request did not fail and the code is a 2xx code. |
| Gateway.NetworkAliasActions | classes/class-ep-api.php:270-281 | The action list has one `add` per index, in order, each naming the network alias. |
| Gateway.TransportErrorFails | classes/class-ep-api.php:72 | A `WP_Error` is a failure for every operation. |
| Gateway.ExactlyTwoHundred | classes/class-ep-api.php:73 | `refresh_index`, `is_alive` and `put_mapping` succeed exactly on the integer code 200. |
| Gateway.OnlyDeleteIndexAccepts404 | classes/class-ep-api.php:657 | A 404 is accepted by `delete_index` and by none of the other status tests. |
| Gateway.AliasAcceptance | classes/class-ep-api.php:251 | The alias test as written accepts exactly the codes up to 200, and a missing code. |
| Gateway.AliasAcceptanceDiscrepancy | classes/class-ep-api.php:285 | The alias test as written and the intended 2xx test disagree exactly on codes below 200, codes 201-299, and a missing code. |
| Gateway.AliasAcceptanceWitnesses | classes/class-ep-api.php:285 | Code 201 is rejected as written and accepted by the intent; code 100 is the reverse. |
| Gateway.DeleteOfAbsentPostFails | classes/class-ep-api.php:181 | A reply with `found: false` makes `delete_post` fail; `found: true` makes it succeed. |

## Left out

- HTTP and JSON are not modelled: `wp_remote_request`, `wp_remote_retrieve_body`, `json_encode`, `json_decode` and the URLs. Each call's outcome is an input `HttpResult` whose body is already decoded.
- `index_post` is not modelled. Apart from the request and the decoding, it does nothing.
- `put_mapping` is not modelled beyond its success test. Its body is a constant schema with float boosts and analyzer settings.
- `delete_network_alias` and `create_network_alias`: their URLs and the decoding of their replies are not modelled. Their action list and their success test are.
- The singleton `factory` and the accessors at the end of the class are not modelled; they only forward calls.
- `get_sites` and `bulk_index_posts` are not modelled; they pass through to WordPress and to the network.
- The `do_action` hooks in `search` are not modelled; they have no effect on the result.
- The `apply_filters` hooks are identity. This covers `ep_search_fields`, `ep_min_similarity`, `ep_formatted_args`, `ep_sync_taxonomies` and `ep_post_sync_args`.
- `maybe_unserialize` is identity: a meta value list is an array, which it returns unchanged.
- `MinSimilarity` is the constant 0.75. No floating-point arithmetic is modelled.
- `FormatArgs` takes typed arguments. `s` is a string; `offset`, `posts_per_page` and `paged` are integers; `post_type` and each `terms` are a string or a list of strings. PHP's juggling of other types (a numeric string for `paged`, an array for `s`) is not modelled.
- `FormatArgs` returns a typed document. It does not record the key order of the PHP array it stands for.
- A `tax_query` entry that is not an array is `NotAnArray`, which never yields a clause. PHP's string-offset read on such an entry is not modelled further.
- A string `aggs` argument and a string `_source` are not modelled at their string offsets. Reading a key of any non-array gives null, and `site_id` is not set on a non-empty scalar `_source`.
- An `aggs.name` that is not a valid array key (an array, say) is carried as it is. PHP's illegal-offset error is not modelled.
- The cast of numeric strings in exponent form is not modelled: from PHP 7.1 `(int) "1e3"` is 1000, while the model reads only the leading digits and gives 1. Decimal strings such as `"7.9"` agree (both give 7) except where PHP's double rounds past `PHP_INT_MAX`. A non-string `_index` is read as "".
- Numeric-string taxonomy names and meta keys, which PHP turns into integer keys, are kept as strings.
- A post id for which `get_post` returns no post is not modelled: `PreparePost` takes the record itself.
- The `get_the_terms` result `WP_Error` and `false` are both `None`. An empty list adds nothing, like either of them.
- `SiteIds.ParseSiteId` states only the 64-bit bound in its own contract. What it computes is stated by lemmas: `CapturedSuffixOfSuffix` and `CapturedSuffixShape` say which names the pattern matches, `ParseSiteIdOfSuffix` gives the value of a matched name, and `ParseSiteIdUnmatched` the value of any other name.
- `QueryTranslator.FormatArgs`: `offset`, `posts_per_page` and `paged` are unbounded integers. In PHP they are 64-bit, and `posts_per_page * ( paged - 1 )` (classes/class-ep-api.php:800) becomes a float once it passes `PHP_INT_MAX`; that overflow is not modelled.
- `PhpValues.Value` has no floating-point case. A float in a reply, such as `_score` or a float field of `_source`, is not represented, and neither is `empty( 0.0 )` being true.

## Findings

| source | as written | input that shows it | evidently intended | confidence | as-written member | corrected member |
|---|---|---|---|---|---|---|
| classes/class-ep-api.php:251, classes/class-ep-api.php:285 | `200 >= code && 300 > code`, which accepts every code up to 200 and a missing code | code 201 (a created alias) is reported as a failure; code 100 or a reply without a code is reported as success | `200 <= code && 300 > code`: any 2xx code | not executed | Gateway.AliasReplyAccepted, shown by Gateway.AliasAcceptanceWitnesses | Gateway.AliasReplyAcceptedIntended, proved against the as-written test by Gateway.AliasAcceptanceDiscrepancy |
