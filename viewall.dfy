/** /genre/viewall (server.js): the provider query assembled from the
    client's query string, and the item list before enrichment. */
module ViewAll {
  import opened Js
  import opened Normalize
  import opened Pipelines
  import opened Combos

  /** The query-string fields the route reads; None is an absent field. */
  datatype ViewAllQuery = ViewAllQuery(
    id: Option<string>,
    mediaType: Option<string>,
    sortBy: Option<string>,
    page: Option<string>,
    voteCountGte: Option<string>,
    voteAverageGte: Option<string>,
    withOriginalLanguage: Option<string>,
    primaryReleaseDateGte: Option<string>,
    withRuntimeGte: Option<string>)

  /** The sort order after destructuring: the default applies only to an
      absent field, so an empty `sort_by` stays empty. */
  function SortOf(q: ViewAllQuery): (r: string)
    ensures q.sortBy.None? ==> r == VoteAverageDesc
    ensures q.sortBy.Some? ==> r == q.sortBy.value
  {
    if q.sortBy.Some? then q.sortBy.value else VoteAverageDesc
  }

  /** The media type after destructuring: like `sort_by`, the default
      "movie" applies only to an absent field, unlike the `|| 'movie'` of the
      other routes. */
  function TypeOf(q: ViewAllQuery): (r: string)
    ensures q.mediaType.None? ==> r == "movie"
    ensures q.mediaType.Some? ==> r == q.mediaType.value
  {
    if q.mediaType.Some? then q.mediaType.value else "movie"
  }

  /** Sets `key` to the field's text when the field is truthy. */
  method SetIfGiven(p: map<string, Param>, key: string, v: Option<string>) returns (r: map<string, Param>)
    ensures key in r <==> key in p || Truthy(v)
    ensures Truthy(v) ==> Maps(r, key, Text(v.value))
    ensures !Truthy(v) ==> r == p
    ensures forall k :: k != key ==> (k in r <==> k in p)
    ensures forall k, w :: k != key ==> (Maps(r, k, w) <==> Maps(p, k, w))
  {
    r := p;
    if Truthy(v) {
      r := r[key := Text(v.value)];
    }
  }

  /** The keys every /genre/viewall query carries. `page` keeps the
      client's text, and defaults to the number 1 only when absent. */
  function ViewAllBase(id: string, sortBy: string, page: Option<string>): (p: map<string, Param>)
    ensures p.Keys == {"with_genres", "sort_by", "include_adult", "include_video", "language", "page"}
    ensures Maps(p, "with_genres", Text(id)) && Maps(p, "sort_by", Text(sortBy))
    ensures Maps(p, "include_adult", Flag(false)) && Maps(p, "include_video", Flag(false))
    ensures Maps(p, "language", Text("en-US"))
    ensures Maps(p, "page", if page.Some? then Text(page.value) else Number(1))
  {
    map[
      "with_genres" := Text(id),
      "sort_by" := Text(sortBy),
      "include_adult" := Flag(false),
      "include_video" := Flag(false),
      "language" := Text("en-US"),
      "page" := if page.Some? then Text(page.value) else Number(1)]
  }

  /** The vote-count floor: the client's value when given, else 300 when
      sorting by rating, else no key. */
  method SetVoteCount(p: map<string, Param>, sortBy: string, voteCount: Option<string>) returns (r: map<string, Param>)
    ensures "vote_count.gte" in r <==> "vote_count.gte" in p || Truthy(voteCount) || sortBy == VoteAverageDesc
    ensures Truthy(voteCount) ==> Maps(r, "vote_count.gte", Text(voteCount.value))
    ensures !Truthy(voteCount) && sortBy == VoteAverageDesc ==> Maps(r, "vote_count.gte", Number(VoteCountFloor))
    ensures !Truthy(voteCount) && sortBy != VoteAverageDesc ==> r == p
    ensures forall k :: k != "vote_count.gte" ==> (k in r <==> k in p)
    ensures forall k, w :: k != "vote_count.gte" ==> (Maps(r, k, w) <==> Maps(p, k, w))
  {
    r := p;
    if sortBy == VoteAverageDesc && !Truthy(voteCount) {
      r := r["vote_count.gte" := Number(VoteCountFloor)];
    } else if Truthy(voteCount) {
      r := r["vote_count.gte" := Text(voteCount.value)];
    }
  }

  /** The four optional filters, each added only when the client gave a
      truthy value. */
  method SetOptionalFilters(p: map<string, Param>, q: ViewAllQuery) returns (r: map<string, Param>)
    ensures "vote_average.gte" in r <==> "vote_average.gte" in p || Truthy(q.voteAverageGte)
    ensures "with_original_language" in r <==> "with_original_language" in p || Truthy(q.withOriginalLanguage)
    ensures "primary_release_date.gte" in r <==> "primary_release_date.gte" in p || Truthy(q.primaryReleaseDateGte)
    ensures "with_runtime.gte" in r <==> "with_runtime.gte" in p || Truthy(q.withRuntimeGte)
    ensures Truthy(q.voteAverageGte) ==> Maps(r, "vote_average.gte", Text(q.voteAverageGte.value))
    ensures Truthy(q.withOriginalLanguage) ==> Maps(r, "with_original_language", Text(q.withOriginalLanguage.value))
    ensures Truthy(q.primaryReleaseDateGte) ==> Maps(r, "primary_release_date.gte", Text(q.primaryReleaseDateGte.value))
    ensures Truthy(q.withRuntimeGte) ==> Maps(r, "with_runtime.gte", Text(q.withRuntimeGte.value))
    ensures forall k :: k !in OptionalKeys ==> (k in r <==> k in p)
    ensures forall k, w :: k !in OptionalKeys ==> (Maps(r, k, w) <==> Maps(p, k, w))
  {
    r := SetIfGiven(p, "vote_average.gte", q.voteAverageGte);
    r := SetIfGiven(r, "with_original_language", q.withOriginalLanguage);
    r := SetIfGiven(r, "primary_release_date.gte", q.primaryReleaseDateGte);
    r := SetIfGiven(r, "with_runtime.gte", q.withRuntimeGte);
  }

  const OptionalKeys: set<string> :=
    {"vote_average.gte", "with_original_language", "primary_release_date.gte", "with_runtime.gte"}

  /** The provider query of /genre/viewall, built by conditionally adding
      keys to the fixed ones. A missing or empty id is a 400. */
  method ViewAllParams(q: ViewAllQuery) returns (reply: RouteResult<map<string, Param>>)
    ensures !Truthy(q.id) <==> reply == Fail(400, "Missing genre id")
    ensures Truthy(q.id) <==> reply.Ok?
    ensures reply.Ok? ==> var p := reply.value;
      && Maps(p, "with_genres", Text(q.id.value))
      && Maps(p, "sort_by", Text(SortOf(q)))
      && Maps(p, "include_adult", Flag(false))
      && Maps(p, "include_video", Flag(false))
      && Maps(p, "language", Text("en-US"))
      && Maps(p, "page", if q.page.Some? then Text(q.page.value) else Number(1))
    ensures reply.Ok? ==> var p := reply.value;
      && ("vote_count.gte" in p <==> Truthy(q.voteCountGte) || SortOf(q) == VoteAverageDesc)
      && (Truthy(q.voteCountGte) ==> Maps(p, "vote_count.gte", Text(q.voteCountGte.value)))
      && (!Truthy(q.voteCountGte) && SortOf(q) == VoteAverageDesc ==> Maps(p, "vote_count.gte", Number(VoteCountFloor)))
    ensures reply.Ok? ==> var p := reply.value;
      && ("vote_average.gte" in p <==> Truthy(q.voteAverageGte))
      && ("with_original_language" in p <==> Truthy(q.withOriginalLanguage))
      && ("primary_release_date.gte" in p <==> Truthy(q.primaryReleaseDateGte))
      && ("with_runtime.gte" in p <==> Truthy(q.withRuntimeGte))
    ensures reply.Ok? ==> var p := reply.value;
      && (Truthy(q.voteAverageGte) ==> Maps(p, "vote_average.gte", Text(q.voteAverageGte.value)))
      && (Truthy(q.withOriginalLanguage) ==> Maps(p, "with_original_language", Text(q.withOriginalLanguage.value)))
      && (Truthy(q.primaryReleaseDateGte) ==> Maps(p, "primary_release_date.gte", Text(q.primaryReleaseDateGte.value)))
      && (Truthy(q.withRuntimeGte) ==> Maps(p, "with_runtime.gte", Text(q.withRuntimeGte.value)))
    ensures reply.Ok? ==> forall k :: k in reply.value ==> k in ViewAllKeys
  {
    if !Truthy(q.id) {
      return Fail(400, "Missing genre id");
    }
    var p := ViewAllBase(q.id.value, SortOf(q), q.page);
    p := SetVoteCount(p, SortOf(q), q.voteCountGte);
    p := SetOptionalFilters(p, q);
    reply := Ok(p);
  }

  /** Every key the route can send (besides the API key). */
  const ViewAllKeys: set<string> := {
    "with_genres", "sort_by", "include_adult", "include_video", "language", "page",
    "vote_count.gte", "vote_average.gte", "with_original_language",
    "primary_release_date.gte", "with_runtime.gte"}

  /** `results.filter(listable).map(normalize)`, with `mediaType` the route's
      `TypeOf(q)`: unlike the other lists this one is not cut to a length. */
  function ViewAllItems(results: seq<RawItem>, mediaType: string): (r: seq<Item>)
    ensures |r| == |Filter(results, Listable)|
  {
    NormalizeAll(Filter(results, Listable), mediaType)
  }

  /** Every listable result appears, in order, each with an id, a poster and a title. */
  lemma ViewAllItemsAreComplete(results: seq<RawItem>, mediaType: string)
    ensures forall x :: x in results && Listable(x) ==> NormalizeItem(x, mediaType) in ViewAllItems(results, mediaType)
    ensures forall it :: it in ViewAllItems(results, mediaType) ==>
              TruthyInt(it.tmdbId) && it.poster.Some? && Truthy(it.title) && it.mediaType == mediaType
  {
    var kept := Filter(results, Listable);
    var r := ViewAllItems(results, mediaType);
    forall x | x in results && Listable(x) ensures NormalizeItem(x, mediaType) in r {
      var k :| 0 <= k < |kept| && kept[k] == x;
      assert r[k] == NormalizeItem(x, mediaType);
    }
    forall it | it in r
      ensures TruthyInt(it.tmdbId) && it.poster.Some? && Truthy(it.title) && it.mediaType == mediaType
    {
      var k :| 0 <= k < |r| && r[k] == it;
      ImagesOfItem(kept[k], mediaType);
      OtherFieldsOfItem(kept[k], mediaType);
    }
  }

  /** A list that fits in one combos row gives the same items to /genre/viewall. */
  lemma ViewAllExtendsComboRow(results: seq<RawItem>, mediaType: string)
    requires |Filter(results, Listable)| <= ListLimit
    ensures ViewAllItems(results, mediaType) == ComboItems(results, mediaType)
  {
  }
}
