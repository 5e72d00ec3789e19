/**
 * `EP_API::prepare_post`, `prepare_terms` and `prepare_meta`: shaping one
 * WordPress post into the document that is sent to the index.
 *
 * Everything the plugin asks WordPress for is a field of `Host`; the
 * `ep_sync_taxonomies` and `ep_post_sync_args` hooks are identity.
 */
module DocumentMapper {
  import opened Wrappers
  import opened PhpValues

  datatype Author = Author(login: string, displayName: string)

  /** The fields of the `WP_Post` that `get_post` returns. */
  datatype PostRecord = PostRecord(
    id: int,
    author: int,
    date: string,
    dateGmt: string,
    excerpt: string,
    content: string,
    name: string,
    modified: string,
    modifiedGmt: string,
    parent: int,
    postType: string,
    mimeType: string)

  /** A taxonomy object: its name and its `public` flag. */
  datatype Taxonomy = Taxonomy(name: string, isPublic: bool)

  /** A term as `get_the_terms` returns it. */
  datatype Term = Term(termId: int, slug: string, name: string, parent: int, taxonomy: string)

  /** A term as the document stores it. */
  datatype TermEntry = TermEntry(termId: int, slug: string, name: string, parent: int)

  /** The keys of a PHP array are distinct. */
  predicate DistinctKeys<V>(es: seq<(string, V)>) {
    forall i, j :: 0 <= i < j < |es| ==> es[i].0 != es[j].0
  }

  /** `get_post_meta( $id )`: each meta key with the list of its raw values. */
  type MetaArray = m: seq<(string, seq<string>)> | DistinctKeys(m) witness []

  /** Taxonomy name to the entries of its terms, keys in first-insertion order. */
  type TermGroups = seq<(string, seq<TermEntry>)>

  /** The WordPress functions the mapper consults. */
  datatype Host = Host(
    userOf: int -> Option<Author>,                 // get_userdata; None unless it yields a WP_User
    titleOf: int -> string,                        // get_the_title
    permalinkOf: int -> string,                    // get_permalink
    theContent: string -> string,                  // the 'the_content' filters
    taxonomiesOf: string -> seq<Taxonomy>,         // get_object_taxonomies( $type, 'objects' )
    termsOf: (int, string) -> Option<seq<Term>>,   // get_the_terms; None for false or a WP_Error
    metaOf: int -> MetaArray,                      // get_post_meta
    isProtectedMeta: string -> bool)               // is_protected_meta

  /** The document `prepare_post` returns. */
  datatype PostDocument = PostDocument(
    postId: int,
    author: Author,
    date: string,
    dateGmt: string,
    title: string,
    excerpt: string,
    content: string,
    status: string,
    name: string,
    modified: string,
    modifiedGmt: string,
    parent: int,
    postType: string,
    mimeType: string,
    permalink: string,
    terms: TermGroups,
    meta: MetaArray)

  const PublishStatus: string := "publish"

  // ----- Terms -----

  /** The taxonomies whose `public` flag is set, in their order. */
  function PublicTaxonomies(ts: seq<Taxonomy>): (r: seq<Taxonomy>)
    ensures forall t :: t in r <==> t in ts && t.isPublic
  {
    if |ts| == 0 then []
    else
      var last := ts[|ts| - 1];
      PublicTaxonomies(ts[..|ts| - 1]) + (if last.isPublic then [last] else [])
  }

  /** The terms of post `postId` in each of `taxonomies`, one taxonomy after the other. */
  function CollectedTerms(postId: int, taxonomies: seq<Taxonomy>, termsOf: (int, string) -> Option<seq<Term>>): seq<Term> {
    if |taxonomies| == 0 then []
    else
      CollectedTerms(postId, taxonomies[..|taxonomies| - 1], termsOf)
        + termsOf(postId, taxonomies[|taxonomies| - 1].name).GetOr([])
  }

  function Entry(t: Term): TermEntry {
    TermEntry(t.termId, t.slug, t.name, t.parent)
  }

  /** The entries stored under key `k`; none when the key is missing. */
  function GroupOf(gs: TermGroups, k: string): seq<TermEntry> {
    if |gs| == 0 then []
    else if gs[0].0 == k then gs[0].1
    else GroupOf(gs[1..], k)
  }

  function GroupKeys(gs: TermGroups): set<string> {
    if |gs| == 0 then {} else {gs[0].0} + GroupKeys(gs[1..])
  }

  /** No taxonomy has two groups. */
  predicate GroupKeysDistinct(gs: TermGroups) {
    |gs| == 0 || (gs[0].0 !in GroupKeys(gs[1..]) && GroupKeysDistinct(gs[1..]))
  }

  /** `$terms[ $k ][] = $e`: append to the group of `k`, creating it at the end if need be. */
  function AppendToGroup(gs: TermGroups, k: string, e: TermEntry): (r: TermGroups)
    ensures forall k' :: GroupOf(r, k') == GroupOf(gs, k') + (if k' == k then [e] else [])
    ensures GroupKeys(r) == GroupKeys(gs) + {k}
    ensures GroupKeysDistinct(gs) ==> GroupKeysDistinct(r)
    ensures k !in GroupKeys(gs) ==> r == gs + [(k, [e])]
    ensures k in GroupKeys(gs) ==> |r| == |gs| && forall i :: 0 <= i < |gs| ==> r[i].0 == gs[i].0
  {
    if |gs| == 0 then [(k, [e])]
    else if gs[0].0 == k then
      var r := [(k, gs[0].1 + [e])] + gs[1..];
      assert r[1..] == gs[1..];
      r
    else
      var r := [gs[0]] + AppendToGroup(gs[1..], k, e);
      assert r[1..] == AppendToGroup(gs[1..], k, e);
      r
  }

  /** The document's `terms` for a sequence of terms: each term appended to the group of its own taxonomy. */
  function Grouped(ts: seq<Term>): TermGroups {
    if |ts| == 0 then []
    else
      var last := ts[|ts| - 1];
      AppendToGroup(Grouped(ts[..|ts| - 1]), last.taxonomy, Entry(last))
  }

  lemma GroupedSnoc(ts: seq<Term>, t: Term)
    ensures Grouped(ts + [t]) == AppendToGroup(Grouped(ts), t.taxonomy, Entry(t))
  {
    assert (ts + [t])[..|ts|] == ts;
  }

  /** The entries of the terms of taxonomy `k`, in order. */
  function EntriesFor(ts: seq<Term>, k: string): seq<TermEntry> {
    if |ts| == 0 then []
    else
      var last := ts[|ts| - 1];
      EntriesFor(ts[..|ts| - 1], k) + (if last.taxonomy == k then [Entry(last)] else [])
  }

  function TaxonomiesOf(ts: seq<Term>): set<string> {
    if |ts| == 0 then {} else TaxonomiesOf(ts[..|ts| - 1]) + {ts[|ts| - 1].taxonomy}
  }

  // ----- Meta -----

  /** The meta entries whose key is not protected, in their order. */
  function Unprotected(meta: seq<(string, seq<string>)>, isProtected: string -> bool): seq<(string, seq<string>)> {
    if |meta| == 0 then []
    else
      var last := meta[|meta| - 1];
      Unprotected(meta[..|meta| - 1], isProtected) + (if isProtected(last.0) then [] else [last])
  }

  // ----- The methods -----

  /** The loop that keeps the public taxonomies (classes/class-ep-api.php:584-588). */
  method SelectPublic(taxonomies: seq<Taxonomy>) returns (selected: seq<Taxonomy>)
    ensures selected == PublicTaxonomies(taxonomies)
  {
    selected := [];
    var i := 0;
    while i < |taxonomies|
      invariant 0 <= i <= |taxonomies|
      invariant selected == PublicTaxonomies(taxonomies[..i])
    {
      assert taxonomies[..i + 1][..i] == taxonomies[..i];
      if taxonomies[i].isPublic {
        selected := selected + [taxonomies[i]];
      }
      i := i + 1;
    }
    assert taxonomies[..i] == taxonomies;
  }

  /** The inner loop: each term appended to the group of its own taxonomy (classes/class-ep-api.php:605-612). */
  method AddTerms(terms: TermGroups, ghost before: seq<Term>, objectTerms: seq<Term>) returns (r: TermGroups)
    requires terms == Grouped(before)
    ensures r == Grouped(before + objectTerms)
  {
    r := terms;
    var j := 0;
    assert before + objectTerms[..0] == before;
    while j < |objectTerms|
      invariant 0 <= j <= |objectTerms|
      invariant r == Grouped(before + objectTerms[..j])
    {
      assert before + objectTerms[..j + 1] == (before + objectTerms[..j]) + [objectTerms[j]];
      GroupedSnoc(before + objectTerms[..j], objectTerms[j]);
      r := AppendToGroup(r, objectTerms[j].taxonomy, Entry(objectTerms[j]));
      j := j + 1;
    }
    assert objectTerms[..j] == objectTerms;
  }

  /** `EP_API::prepare_terms`. */
  method PrepareTerms(post: PostRecord, host: Host) returns (terms: TermGroups)
    ensures terms == Grouped(CollectedTerms(post.id, PublicTaxonomies(host.taxonomiesOf(post.postType)), host.termsOf))
  {
    var selected := SelectPublic(host.taxonomiesOf(post.postType));
    if |selected| == 0 {
      return [];
    }
    terms := [];
    var k := 0;
    while k < |selected|
      invariant 0 <= k <= |selected|
      invariant terms == Grouped(CollectedTerms(post.id, selected[..k], host.termsOf))
    {
      assert selected[..k + 1][..k] == selected[..k];
      ghost var before := CollectedTerms(post.id, selected[..k], host.termsOf);
      var objectTerms := host.termsOf(post.id, selected[k].name);
      assert CollectedTerms(post.id, selected[..k + 1], host.termsOf) == before + objectTerms.GetOr([]);
      if objectTerms.Some? && |objectTerms.value| > 0 {
        terms := AddTerms(terms, before, objectTerms.value);
      } else {
        assert before + objectTerms.GetOr([]) == before;
      }
      k := k + 1;
    }
    assert selected[..k] == selected;
  }

  /** `EP_API::prepare_meta`: each unprotected key with its value list (`maybe_unserialize` leaves a list as it is). */
  method PrepareMeta(post: PostRecord, host: Host) returns (prepared: seq<(string, seq<string>)>)
    ensures prepared == Unprotected(host.metaOf(post.id), host.isProtectedMeta)
  {
    var meta := host.metaOf(post.id);
    if |meta| == 0 {
      return [];
    }
    prepared := [];
    var i := 0;
    while i < |meta|
      invariant 0 <= i <= |meta|
      invariant prepared == Unprotected(meta[..i], host.isProtectedMeta)
    {
      assert meta[..i + 1][..i] == meta[..i];
      var (key, value) := meta[i];
      if !host.isProtectedMeta(key) {
        prepared := prepared + [(key, value)];
      }
      i := i + 1;
    }
    assert meta[..i] == meta;
  }

  /**
   * `EP_API::prepare_post`, given the record `get_post` returns. The author
   * falls back to empty strings, and the status is always 'publish'.
   */
  method PreparePost(post: PostRecord, host: Host) returns (doc: PostDocument)
    ensures doc.postId == post.id && doc.status == PublishStatus
    ensures doc.author == host.userOf(post.author).GetOr(Author("", ""))
    ensures doc.title == host.titleOf(post.id) && doc.permalink == host.permalinkOf(post.id)
    ensures doc.content == host.theContent(post.content)
    ensures doc.date == post.date && doc.dateGmt == post.dateGmt && doc.excerpt == post.excerpt
    ensures doc.name == post.name && doc.modified == post.modified && doc.modifiedGmt == post.modifiedGmt
    ensures doc.parent == post.parent && doc.postType == post.postType && doc.mimeType == post.mimeType
    ensures doc.terms == Grouped(CollectedTerms(post.id, PublicTaxonomies(host.taxonomiesOf(post.postType)), host.termsOf))
    ensures doc.meta == Unprotected(host.metaOf(post.id), host.isProtectedMeta)
  {
    var user := host.userOf(post.author);
    var userData: Author;
    if user.Some? {
      userData := Author(user.value.login, user.value.displayName);
    } else {
      userData := Author("", "");
    }
    var terms := PrepareTerms(post, host);
    var meta := PrepareMeta(post, host);
    UnprotectedMeta(host.metaOf(post.id), host.isProtectedMeta);
    doc := PostDocument(
      post.id, userData, post.date, post.dateGmt, host.titleOf(post.id), post.excerpt,
      host.theContent(post.content), PublishStatus, post.name, post.modified, post.modifiedGmt,
      post.parent, post.postType, post.mimeType, host.permalinkOf(post.id), terms, meta);
  }

  // ----- The document as the PHP array that is encoded -----

  function EntryValue(e: TermEntry): Value {
    Arr([(StrKey("term_id"), Int(e.termId)), (StrKey("slug"), Str(e.slug)),
         (StrKey("name"), Str(e.name)), (StrKey("parent"), Int(e.parent))])
  }

  function GroupValue(entries: seq<TermEntry>): Value {
    Arr(seq(|entries|, j requires 0 <= j < |entries| => (IntKey(j), EntryValue(entries[j]))))
  }

  function TermsValue(gs: TermGroups): Value {
    Arr(seq(|gs|, i requires 0 <= i < |gs| => (StrKey(gs[i].0), GroupValue(gs[i].1))))
  }

  function MetaValue(meta: seq<(string, seq<string>)>): Value {
    Arr(seq(|meta|, i requires 0 <= i < |meta| => (StrKey(meta[i].0), StrList(meta[i].1))))
  }

  /** The keys of the array `prepare_post` builds, in the source's order. */
  const DocumentKeys: seq<string> :=
    [ "post_id", "post_author", "post_date", "post_date_gmt", "post_title", "post_excerpt",
      "post_content", "post_status", "post_name", "post_modified", "post_modified_gmt",
      "post_parent", "post_type", "post_mime_type", "permalink", "terms", "post_meta" ]

  /** The values stored under `DocumentKeys`, one for one. */
  function DocumentFields(d: PostDocument): seq<Value> {
    [ Int(d.postId),
      Arr([(StrKey("login"), Str(d.author.login)), (StrKey("display_name"), Str(d.author.displayName))]),
      Str(d.date), Str(d.dateGmt), Str(d.title), Str(d.excerpt), Str(d.content), Str(d.status),
      Str(d.name), Str(d.modified), Str(d.modifiedGmt), Int(d.parent), Str(d.postType),
      Str(d.mimeType), Str(d.permalink), TermsValue(d.terms), MetaValue(d.meta) ]
  }

  function DocumentEntries(d: PostDocument): seq<(Key, Value)> {
    Entries(DocumentKeys, DocumentFields(d))
  }

  function DocumentValue(d: PostDocument): Value {
    Arr(DocumentEntries(d))
  }

  // ----- Lemmas -----

  /** The array `prepare_post` builds has no `site_id`: search adds it to each hit. */
  lemma DocumentHasNoSiteId(d: PostDocument)
    ensures !HasKey(DocumentEntries(d), StrKey("site_id"))
  {
    forall j | 0 <= j < |DocumentKeys|
      ensures DocumentKeys[j] != "site_id"
    {
      assert DocumentKeys[j][0] != 's';
    }
    EntriesWithout(DocumentKeys, DocumentFields(d), "site_id");
  }

  /** Where the id, title, status and type first occur among the document's keys. */
  lemma DocumentKeysFirst()
    ensures DocumentKeys[0] == "post_id" && DocumentKeys[4] == "post_title"
    ensures DocumentKeys[7] == "post_status" && DocumentKeys[12] == "post_type"
    ensures forall j :: 0 <= j < 4 ==> DocumentKeys[j] != DocumentKeys[4]
    ensures forall j :: 0 <= j < 7 ==> DocumentKeys[j] != DocumentKeys[7]
    ensures forall j :: 0 <= j < 12 ==> DocumentKeys[j] != DocumentKeys[12]
  {
  }

  /** The encoded document carries the post's id, title, type and status under their keys. */
  lemma DocumentValueFields(d: PostDocument)
    ensures Index(DocumentValue(d), "post_id") == Int(d.postId)
    ensures Index(DocumentValue(d), "post_title") == Str(d.title)
    ensures Index(DocumentValue(d), "post_type") == Str(d.postType)
    ensures Index(DocumentValue(d), "post_status") == Str(d.status)
  {
    var keys, vals := DocumentKeys, DocumentFields(d);
    DocumentKeysFirst();
    LookupEntries(keys, vals, 0);
    LookupEntries(keys, vals, 4);
    LookupEntries(keys, vals, 7);
    LookupEntries(keys, vals, 12);
  }

  /**
   * Grouping terms by taxonomy: the group of each taxonomy holds exactly the
   * entries of that taxonomy's terms, in order; there is a group for exactly
   * the taxonomies that occur, and no taxonomy has two.
   */
  lemma {:induction false} GroupedByTaxonomy(ts: seq<Term>)
    ensures forall k :: GroupOf(Grouped(ts), k) == EntriesFor(ts, k)
    ensures GroupKeys(Grouped(ts)) == TaxonomiesOf(ts)
    ensures GroupKeysDistinct(Grouped(ts))
  {
    if |ts| > 0 {
      GroupedByTaxonomy(ts[..|ts| - 1]);
    }
  }

  /** Every collected term was returned by `get_the_terms` for one of the given taxonomies. */
  lemma {:induction false} CollectedTermsOrigin(postId: int, taxonomies: seq<Taxonomy>,
                                                termsOf: (int, string) -> Option<seq<Term>>, t: Term)
    requires t in CollectedTerms(postId, taxonomies, termsOf)
    ensures exists x :: x in taxonomies && termsOf(postId, x.name).Some? && t in termsOf(postId, x.name).value
  {
    var n := |taxonomies|;
    var last := taxonomies[n - 1];
    if t in CollectedTerms(postId, taxonomies[..n - 1], termsOf) {
      CollectedTermsOrigin(postId, taxonomies[..n - 1], termsOf, t);
      var x :| x in taxonomies[..n - 1] && termsOf(postId, x.name).Some? && t in termsOf(postId, x.name).value;
      assert x in taxonomies;
    } else {
      assert t in termsOf(postId, last.name).GetOr([]);
      assert last in taxonomies;
    }
  }

  /** Only public taxonomies are asked for terms: every term in a document comes from one of them. */
  lemma DocumentTermsArePublic(post: PostRecord, host: Host, t: Term)
    requires t in CollectedTerms(post.id, PublicTaxonomies(host.taxonomiesOf(post.postType)), host.termsOf)
    ensures exists x :: (x in host.taxonomiesOf(post.postType) && x.isPublic
                         && host.termsOf(post.id, x.name).Some? && t in host.termsOf(post.id, x.name).value)
  {
    CollectedTermsOrigin(post.id, PublicTaxonomies(host.taxonomiesOf(post.postType)), host.termsOf, t);
  }

  /**
   * The meta filter keeps exactly the entries whose key is not protected,
   * with their values, and the keys stay distinct.
   */
  lemma {:induction false} UnprotectedMeta(meta: seq<(string, seq<string>)>, isProtected: string -> bool)
    ensures forall e :: e in Unprotected(meta, isProtected) <==> e in meta && !isProtected(e.0)
    ensures DistinctKeys(meta) ==> DistinctKeys(Unprotected(meta, isProtected))
  {
    if |meta| > 0 {
      var init := meta[..|meta| - 1];
      UnprotectedMeta(init, isProtected);
      assert meta == init + [meta[|meta| - 1]];
      if DistinctKeys(meta) {
        assert DistinctKeys(init);
        var r := Unprotected(meta, isProtected);
        var ri := Unprotected(init, isProtected);
        forall i, j | 0 <= i < j < |r| ensures r[i].0 != r[j].0 {
          if j == |ri| {
            assert r[i] in ri;
            assert r[i] in init;
            var a :| 0 <= a < |init| && init[a] == r[i];
            assert meta[a] == r[i];
          }
        }
      }
    }
  }
}
