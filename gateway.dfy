/**
 * The HTTP side of `EP_API`, reduced to what it decides: which replies each
 * operation accepts, what it reads from a decoded reply, and the action list
 * `create_network_alias` sends. Sending the request is not modelled; its
 * outcome is a `HttpResult`.
 */
module Gateway {
  import opened Wrappers
  import opened PhpValues

  /**
   * What `wp_remote_request` gave back: a `WP_Error`, or a reply with its
   * status code (missing when the reply carries none) and its body as
   * `json_decode` reads it (null when the body is not JSON).
   */
  datatype HttpResult = WpError | Reply(code: Option<int>, body: Value)

  /** `refresh_index` and `is_alive`: the code is set and is exactly the integer 200. */
  predicate RefreshSucceeded(r: HttpResult) {
    r.Reply? && r.code.Some? && r.code.value == 200
  }

  predicate IsAlive(r: HttpResult) {
    r.Reply? && r.code.Some? && 200 == r.code.value
  }

  /**
   * `delete_network_alias` and `create_network_alias` as written:
   * `200 >= code && 300 > code`. A missing code is read as '', which
   * compares below both numbers (as 0 before PHP 8, as the shorter string
   * from PHP 8 on), so both tests hold.
   */
  predicate AliasReplyAccepted(r: HttpResult) {
    r.Reply? &&
    match r.code
    case None => 200 >= 0 && 300 > 0
    case Some(c) => 200 >= c && 300 > c
  }

  /** The evident intent of the alias test: any 2xx code. */
  predicate AliasReplyAcceptedIntended(r: HttpResult) {
    r.Reply? && r.code.Some? && 200 <= r.code.value && r.code.value < 300
  }

  /** `put_mapping`: the code is exactly 200. */
  predicate MappingAccepted(r: HttpResult) {
    r.Reply? && r.code == Some(200)
  }

  /** `delete_index`: 200, or 404 for an index that is already gone. */
  predicate DeleteIndexAccepted(r: HttpResult) {
    r.Reply? && (r.code == Some(200) || r.code == Some(404))
  }

  /** `delete_post`: true only when the decoded reply has a non-empty `found`; the code is not looked at. */
  predicate DeletePostSucceeded(r: HttpResult) {
    r.Reply? && !Empty(Index(r.body, "found"))
  }

  /** `get_post`: the stored `_source` when `exists` or `found` is non-empty; `None` stands for false. */
  function GetPostSource(r: HttpResult): (source: Option<Value>)
    ensures source.Some? ==> r.Reply? && source.value == Index(r.body, "_source")
    ensures r.Reply? && !Empty(Index(r.body, "found")) ==> source.Some?
    ensures r.Reply? && !Empty(Index(r.body, "exists")) ==> source.Some?
    ensures r.Reply? && Empty(Index(r.body, "exists")) && Empty(Index(r.body, "found")) ==> source.None?
    ensures r.WpError? ==> source.None?
  {
    if r.Reply? && (!Empty(Index(r.body, "exists")) || !Empty(Index(r.body, "found"))) then
      Some(Index(r.body, "_source"))
    else None
  }

  /** One entry of the `actions` list: `[ 'add' => [ 'index' => index, 'alias' => alias ] ]`. */
  datatype AliasAction = AddAlias(index: string, alias: string)

  /** The `actions` list `create_network_alias` sends: one `add` per index, in order, all to the network alias. */
  method NetworkAliasActions(indexes: seq<string>, networkAlias: string) returns (actions: seq<AliasAction>)
    ensures |actions| == |indexes|
    ensures forall i :: 0 <= i < |indexes| ==> actions[i] == AddAlias(indexes[i], networkAlias)
  {
    actions := [];
    var i := 0;
    while i < |indexes|
      invariant 0 <= i <= |indexes|
      invariant |actions| == i
      invariant forall j :: 0 <= j < i ==> actions[j] == AddAlias(indexes[j], networkAlias)
    {
      actions := actions + [AddAlias(indexes[i], networkAlias)];
      i := i + 1;
    }
  }

  // ----- Lemmas -----

  /** A transport error is a failure for every operation. */
  lemma TransportErrorFails()
    ensures !RefreshSucceeded(WpError) && !IsAlive(WpError) && !AliasReplyAccepted(WpError)
    ensures !MappingAccepted(WpError) && !DeleteIndexAccepted(WpError) && !DeletePostSucceeded(WpError)
    ensures GetPostSource(WpError) == None
  {
  }

  /** `refresh_index`, `is_alive` and `put_mapping` accept a reply exactly when its code is 200. */
  lemma ExactlyTwoHundred(r: HttpResult)
    ensures RefreshSucceeded(r) <==> r.Reply? && r.code == Some(200)
    ensures IsAlive(r) <==> RefreshSucceeded(r)
    ensures MappingAccepted(r) <==> RefreshSucceeded(r)
  {
  }

  /** `delete_index` is the only operation that accepts a 404. */
  lemma OnlyDeleteIndexAccepts404(body: Value)
    ensures DeleteIndexAccepted(Reply(Some(404), body))
    ensures !RefreshSucceeded(Reply(Some(404), body)) && !MappingAccepted(Reply(Some(404), body))
    ensures !AliasReplyAccepted(Reply(Some(404), body))
  {
  }

  /** The alias test accepts a reply exactly when its code is missing or at most 200. */
  lemma AliasAcceptance(r: HttpResult)
    ensures AliasReplyAccepted(r) <==> r.Reply? && (r.code.None? || r.code.value <= 200)
  {
  }

  /**
   * Where the alias test as written and its intent disagree: every code
   * below 200 and every 2xx code other than 200; and the missing code.
   */
  lemma AliasAcceptanceDiscrepancy(c: int, body: Value)
    ensures AliasReplyAccepted(Reply(Some(c), body)) != AliasReplyAcceptedIntended(Reply(Some(c), body))
      <==> c < 200 || (200 < c < 300)
    ensures AliasReplyAccepted(Reply(None, body)) && !AliasReplyAcceptedIntended(Reply(None, body))
  {
  }

  /** Concrete witnesses: 201 Created is refused, 100 Continue is accepted. */
  lemma AliasAcceptanceWitnesses(body: Value)
    ensures !AliasReplyAccepted(Reply(Some(201), body)) && AliasReplyAcceptedIntended(Reply(Some(201), body))
    ensures AliasReplyAccepted(Reply(Some(100), body)) && !AliasReplyAcceptedIntended(Reply(Some(100), body))
  {
  }

  /**
   * Deleting a document the index does not hold answers `found: false`, and
   * `delete_post` reports failure for it whatever the status code.
   */
  lemma DeleteOfAbsentPostFails(code: Option<int>)
    ensures !DeletePostSucceeded(Reply(code, Arr([(StrKey("found"), Bool(false))])))
    ensures DeletePostSucceeded(Reply(code, Arr([(StrKey("found"), Bool(true))])))
  {
  }
}
