/**
 * `EP_API::is_empty_search` and the part of `EP_API::search` that turns a
 * decoded search response into `found_posts` and `posts`, each post carrying
 * the id of the site whose index it came from.
 */
module SearchResults {
  import opened PhpValues
  import opened SiteIds
  import opened Gateway
  import opened DocumentMapper

  /** `[ 'found_posts' => foundPosts, 'posts' => posts ]` */
  datatype SearchResult = SearchResult(foundPosts: Value, posts: seq<Value>)

  const NoResults: SearchResult := SearchResult(Int(0), [])

  /** `EP_API::is_empty_search`: not an array, an `error` that is set, or empty `hits`. */
  predicate IsEmptySearch(response: Value) {
    if !IsArray(response) then true
    else if Isset(response, "error") then true
    else if Empty(Index(response, "hits")) then true
    else false
  }

  /** What `foreach` visits in `$response['hits']['hits']`: nothing unless it is an array. */
  function Hits(response: Value): seq<Value> {
    var hits := Index(Index(response, "hits"), "hits");
    if hits.Arr? then Values(hits.entries) else []
  }

  /** The index name `preg_replace` receives: a string as it is, null as "". */
  function IndexNameOf(v: Value): string {
    if v.Str? then v.s else ""
  }

  /** `parse_site_id( $hit['_index'] )`. */
  function SiteIdOf(hit: Value): int {
    ParseSiteId(IndexNameOf(Index(hit, "_index")))
  }

  /**
   * `$post['site_id'] = id`: set on an array (in place, or appended); null
   * and false turn into a one-entry array; other scalars are left as they are.
   */
  function WithSiteId(source: Value, siteId: int): Value {
    match source
    case Arr(es) => Arr(Put(es, StrKey("site_id"), Int(siteId)))
    case Null => Arr([(StrKey("site_id"), Int(siteId))])
    case Bool(b) => if b then source else Arr([(StrKey("site_id"), Int(siteId))])
    case _ => source
  }

  /** One post of the result: the hit's `_source` with the site id of its `_index`. */
  function ReshapeHit(hit: Value): Value {
    WithSiteId(Index(hit, "_source"), SiteIdOf(hit))
  }

  /** The `foreach` over the hits: each `_source` gets the site id parsed from its `_index`. */
  method ReshapeHits(hits: seq<Value>) returns (posts: seq<Value>)
    ensures |posts| == |hits|
    ensures forall i :: 0 <= i < |hits| ==> posts[i] == ReshapeHit(hits[i])
  {
    posts := [];
    var i := 0;
    while i < |hits|
      invariant 0 <= i <= |hits|
      invariant |posts| == i
      invariant forall j :: 0 <= j < i ==> posts[j] == ReshapeHit(hits[j])
    {
      var hit := hits[i];
      var post := Index(hit, "_source");
      post := WithSiteId(post, SiteIdOf(hit));
      posts := posts + [post];
      i := i + 1;
    }
  }

  /** `EP_API::search` after the request: the empty result, or one post per hit, in order. */
  method Search(reply: HttpResult) returns (result: SearchResult)
    ensures !reply.Reply? || IsEmptySearch(reply.body) ==> result == NoResults
    ensures reply.Reply? && !IsEmptySearch(reply.body) ==>
      result.foundPosts == Index(Index(reply.body, "hits"), "total")
    ensures reply.Reply? && !IsEmptySearch(reply.body) ==>
      |result.posts| == |Hits(reply.body)|
      && forall i :: 0 <= i < |result.posts| ==> result.posts[i] == ReshapeHit(Hits(reply.body)[i])
  {
    if reply.WpError? {
      return NoResults;
    }
    var response := reply.body;
    if IsEmptySearch(response) {
      return NoResults;
    }
    var posts := ReshapeHits(Hits(response));
    return SearchResult(Index(Index(response, "hits"), "total"), posts);
  }

  // ----- Lemmas -----

  /**
   * Annotating a post sets `site_id` and keeps every other field; a source
   * without a `site_id` gets it as a new last entry.
   */
  lemma WithSiteIdFields(source: Value, siteId: int)
    ensures source.Arr? || source == Null || source == Bool(false) ==>
      Index(WithSiteId(source, siteId), "site_id") == Int(siteId)
    ensures source.Arr? ==> forall k :: k != "site_id" ==> Index(WithSiteId(source, siteId), k) == Index(source, k)
    ensures source.Arr? && !HasKey(source.entries, StrKey("site_id")) ==>
      WithSiteId(source, siteId) == Arr(source.entries + [(StrKey("site_id"), Int(siteId))])
    ensures source.Arr? && HasKey(source.entries, StrKey("site_id")) ==>
      var es := WithSiteId(source, siteId).entries;
      |es| == |source.entries| && forall i :: 0 <= i < |es| ==> es[i].0 == source.entries[i].0
    ensures source == Null || source == Bool(false) ==>
      WithSiteId(source, siteId) == Arr([(StrKey("site_id"), Int(siteId))])
    ensures !source.Arr? && source != Null && source != Bool(false) ==> WithSiteId(source, siteId) == source
  {
    if source.Null? || source == Bool(false) {
      assert WithSiteId(source, siteId).entries == [(StrKey("site_id"), Int(siteId))];
    }
  }

  /** The three ways a response counts as empty, and the one way it does not. */
  lemma EmptySearchCases(response: Value)
    ensures !response.Arr? ==> IsEmptySearch(response)
    ensures response.Arr? && Index(response, "error") != Null ==> IsEmptySearch(response)
    ensures response.Arr? && Empty(Index(response, "hits")) ==> IsEmptySearch(response)
    ensures response.Arr? && Index(response, "error") == Null && !Empty(Index(response, "hits")) ==> !IsEmptySearch(response)
  {
  }

  /**
   * A response with no `error` whose `hits` is not empty but holds no hit
   * list is not an empty search: `search` reports `hits.total` and no posts.
   */
  lemma NonEmptyHitsWithoutList(response: Value)
    requires response.Arr? && Index(response, "error") == Null
    requires !Empty(Index(response, "hits")) && !Index(Index(response, "hits"), "hits").Arr?
    ensures !IsEmptySearch(response) && Hits(response) == []
  {
  }

  /** The smallest such response: `[ 'hits' => [ 'total' => t ] ]`. */
  lemma TotalOnlyResponse(total: Value)
    ensures var response := Arr([(StrKey("hits"), Arr([(StrKey("total"), total)]))]);
      !IsEmptySearch(response) && Hits(response) == []
  {
    var hits := Arr([(StrKey("total"), total)]);
    var response := Arr([(StrKey("hits"), hits)]);
    assert "total"[0] != "hits"[0];
    assert Lookup(hits.entries[1..], StrKey("hits")) == Null;
    assert Index(hits, "hits") == Null;
    assert "hits"[0] != "error"[0];
    assert Lookup(response.entries[1..], StrKey("error")) == Null;
    assert Index(response, "error") == Null;
    assert Index(response, "hits") == hits;
    NonEmptyHitsWithoutList(response);
  }

  /**
   * A post in the result is the hit's `_source` with `site_id` set to the
   * site id of the hit's `_index`, and every other field as stored.
   */
  lemma ReshapeHitFields(hit: Value, k: string)
    requires Index(hit, "_source").Arr?
    ensures Index(ReshapeHit(hit), "site_id") == Int(SiteIdOf(hit))
    ensures k != "site_id" ==> Index(ReshapeHit(hit), k) == Index(Index(hit, "_source"), k)
  {
    WithSiteIdFields(Index(hit, "_source"), SiteIdOf(hit));
  }

  /**
   * Indexing and searching round trip: a hit whose `_source` is the document
   * `prepare_post` built gives back its id, title and type, with the site id
   * read from the hit's index name.
   */
  lemma SearchRoundTrip(d: PostDocument, hit: Value, indexName: string)
    requires Index(hit, "_source") == DocumentValue(d)
    requires Index(hit, "_index") == Str(indexName)
    ensures Index(ReshapeHit(hit), "post_id") == Int(d.postId)
    ensures Index(ReshapeHit(hit), "post_title") == Str(d.title)
    ensures Index(ReshapeHit(hit), "post_type") == Str(d.postType)
    ensures Index(ReshapeHit(hit), "site_id") == Int(ParseSiteId(indexName))
  {
    DocumentValueFields(d);
    assert "post_id"[0] != "site_id"[0];
    ReshapeHitFields(hit, "post_id");
    assert "post_title"[0] != "site_id"[0];
    ReshapeHitFields(hit, "post_title");
    assert "post_type"[0] != "site_id"[0];
    ReshapeHitFields(hit, "post_type");
  }

  /** With an index named after its site as `<prefix>-<site id>`, the post carries that site id. */
  lemma SearchRoundTripSiteId(d: PostDocument, prefix: string, siteId: nat)
    requires NoNewline(prefix) && siteId <= IntMax
    ensures var hit := Arr([(StrKey("_index"), Str(prefix + "-" + DecimalString(siteId))),
                            (StrKey("_source"), DocumentValue(d))]);
      Index(ReshapeHit(hit), "site_id") == Int(siteId) && Index(ReshapeHit(hit), "post_id") == Int(d.postId)
  {
    var hit := Arr([(StrKey("_index"), Str(prefix + "-" + DecimalString(siteId))),
                    (StrKey("_source"), DocumentValue(d))]);
    LookupFirst(hit.entries, StrKey("_source"), 1);
    SearchRoundTrip(d, hit, prefix + "-" + DecimalString(siteId));
    ParseSiteIdRoundTrip(prefix, siteId);
  }
}
