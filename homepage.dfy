/** /homepage/genres (server.js): six curated genre sections per media type,
    each filled from one provider request in a loop. */
module Homepage {
  import opened Js
  import opened Normalize
  import opened Pipelines
  import opened Combos

  /** One curated section: the client-facing name and the provider genre id. */
  datatype Section = Section(caption: string, genreId: int)

  /** The movie sections, in the order the route requests them. */
  const MovieSections: seq<Section> := [
    Section("Action", 28), Section("Comedy", 35), Section("Horror", 27),
    Section("Drama", 18), Section("SciFi", 878), Section("Romance", 10749)]

  /** The TV sections; Horror borrows Mystery and Romance borrows Soap. */
  const TvSections: seq<Section> := [
    Section("Action", 10759), Section("Comedy", 35), Section("Horror", 9648),
    Section("Drama", 18), Section("SciFi", 10765), Section("Romance", 10766)]

  /** The section table of a media type; only "movie" and "tv" have one. */
  function SectionTable(mediaType: string): (r: Option<seq<Section>>)
    ensures r.Some? <==> mediaType == "movie" || mediaType == "tv"
    ensures r.Some? ==> |r.value| == 6
  {
    if mediaType == "movie" then Some(MovieSections)
    else if mediaType == "tv" then Some(TvSections)
    else None
  }

  /** No genre id occurs twice in a section list. */
  predicate DistinctGenres(sections: seq<Section>) {
    forall i, j :: 0 <= i < j < |sections| ==> sections[i].genreId != sections[j].genreId
  }

  lemma SectionTablesAreDistinct(mediaType: string)
    requires SectionTable(mediaType).Some?
    ensures DistinctGenres(SectionTable(mediaType).value)
  {
  }

  /** What the provider is asked for one section: the discover endpoint of
      the media type with the query `SectionParams(genreId)`. The query and
      the genre id determine each other (`SectionQueryDeterminesGenre`), so
      the request is keyed by the genre id. */
  datatype SectionRequest = SectionRequest(mediaType: string, genreId: int)

  /** The query of one section request; the vote floor goes out under the
      key `vote_count_gte` exactly as written; no other key is sent. */
  function SectionParams(genreId: int): (p: map<string, Param>)
    ensures p.Keys == {"with_genres", "sort_by", "vote_count_gte", "include_adult", "language", "page"}
    ensures Maps(p, "with_genres", Number(genreId)) && Maps(p, "sort_by", Text(PopularityDesc))
    ensures Maps(p, "vote_count_gte", Number(100)) && Maps(p, "include_adult", Flag(false))
    ensures Maps(p, "language", Text("en-US")) && Maps(p, "page", Number(1))
  {
    map[
      "with_genres" := Number(genreId),
      "sort_by" := Text(PopularityDesc),
      "vote_count_gte" := Number(100),
      "include_adult" := Flag(false),
      "language" := Text("en-US"),
      "page" := Number(1)]
  }

  /** Two sections send the same query exactly when they ask for the same genre. */
  lemma SectionQueryDeterminesGenre(a: int, b: int)
    ensures SectionParams(a) == SectionParams(b) <==> a == b
  {
    if SectionParams(a) == SectionParams(b) {
      assert SectionParams(a)["with_genres"] == SectionParams(b)["with_genres"];
    }
  }

  /** The request sent for one section of a media type. */
  function RequestFor(mediaType: string, s: Section): SectionRequest {
    SectionRequest(mediaType, s.genreId)
  }

  /** The genre ids of a section list. */
  function GenreIds(sections: seq<Section>): (r: set<int>)
    ensures forall k :: 0 <= k < |sections| ==> sections[k].genreId in r
    ensures forall g :: g in r ==> exists k :: 0 <= k < |sections| && sections[k].genreId == g
  {
    set k | 0 <= k < |sections| :: sections[k].genreId
  }

  /** `sections` after the given sections were fetched in order: each sets
      its genre id to its items. */
  function SectionsOf(mediaType: string, sections: seq<Section>, provider: SectionRequest -> Fetch,
                      reshape: seq<RawItem> -> seq<Item>): map<int, seq<Item>>
    requires forall k :: 0 <= k < |sections| ==> provider(RequestFor(mediaType, sections[k])).Fetched?
    decreases |sections|
  {
    if sections == [] then map[]
    else
      var n := |sections| - 1;
      SectionsOf(mediaType, sections[..n], provider, reshape)[sections[n].genreId :=
        reshape(provider(RequestFor(mediaType, sections[n])).results)]
  }

  /** One more fetched section extends SectionsOf by its entry. */
  lemma SectionsOfSnoc(mediaType: string, sections: seq<Section>, provider: SectionRequest -> Fetch,
                       reshape: seq<RawItem> -> seq<Item>, i: nat)
    requires i < |sections|
    requires forall k :: 0 <= k <= i ==> provider(RequestFor(mediaType, sections[k])).Fetched?
    ensures SectionsOf(mediaType, sections[..i + 1], provider, reshape) ==
            SectionsOf(mediaType, sections[..i], provider, reshape)[sections[i].genreId :=
              reshape(provider(RequestFor(mediaType, sections[i])).results)]
  {
    assert sections[..i + 1][..i] == sections[..i];
  }

  /** The genre ids of a list are those of all but its last section, and the last one's. */
  lemma GenreIdsSnoc(sections: seq<Section>)
    requires sections != []
    ensures GenreIds(sections) == GenreIds(sections[..|sections| - 1]) + {sections[|sections| - 1].genreId}
  {
    var n := |sections| - 1;
    forall g | g in GenreIds(sections) ensures g in GenreIds(sections[..n]) + {sections[n].genreId} {
      var k :| 0 <= k < |sections| && sections[k].genreId == g;
      if k < n { assert sections[..n][k] == sections[k]; }
    }
    forall k | 0 <= k < n ensures sections[..n][k].genreId in GenreIds(sections) {
      assert sections[..n][k] == sections[k];
    }
  }

  /** The table is keyed by exactly the sections' genre ids. */
  lemma {:induction false} SectionsOfKeys(mediaType: string, sections: seq<Section>, provider: SectionRequest -> Fetch,
                                          reshape: seq<RawItem> -> seq<Item>)
    requires forall k :: 0 <= k < |sections| ==> provider(RequestFor(mediaType, sections[k])).Fetched?
    ensures SectionsOf(mediaType, sections, provider, reshape).Keys == GenreIds(sections)
    decreases |sections|
  {
    if sections != [] {
      SectionsOfKeys(mediaType, sections[..|sections| - 1], provider, reshape);
      GenreIdsSnoc(sections);
    }
  }

  /** With distinct genre ids, each section's entry holds its own items. */
  lemma {:induction false} SectionsOfAt(mediaType: string, sections: seq<Section>, provider: SectionRequest -> Fetch,
                                        reshape: seq<RawItem> -> seq<Item>, i: nat)
    requires forall k :: 0 <= k < |sections| ==> provider(RequestFor(mediaType, sections[k])).Fetched?
    requires DistinctGenres(sections)
    requires i < |sections|
    ensures sections[i].genreId in SectionsOf(mediaType, sections, provider, reshape)
    ensures SectionsOf(mediaType, sections, provider, reshape)[sections[i].genreId] ==
              reshape(provider(RequestFor(mediaType, sections[i])).results)
    decreases |sections|
  {
    var n := |sections| - 1;
    if i < n {
      assert sections[..n][i] == sections[i];
      assert DistinctGenres(sections[..n]) by {
        forall a, b | 0 <= a < b < n ensures sections[..n][a].genreId != sections[..n][b].genreId {
          assert sections[..n][a] == sections[a] && sections[..n][b] == sections[b];
        }
      }
      SectionsOfAt(mediaType, sections[..n], provider, reshape, i);
    }
  }

  /** The `for` loop: one request per section, in order; the first failed
      request aborts the route, otherwise `sections[genreId]` holds the
      section's items. */
  method FillSections(mediaType: string, sections: seq<Section>, provider: SectionRequest -> Fetch,
                      reshape: seq<RawItem> -> seq<Item>)
    returns (requests: seq<SectionRequest>, reply: RouteResult<map<int, seq<Item>>>)
    ensures reply.Ok? <==> forall k :: 0 <= k < |sections| ==> provider(RequestFor(mediaType, sections[k])).Fetched?
    ensures reply.Fail? ==> reply == Fail(500, "Genre homepage fetch failed")
    ensures reply.Ok? ==> reply.value == SectionsOf(mediaType, sections, provider, reshape)
    ensures |requests| <= |sections|
    ensures forall k :: 0 <= k < |requests| ==> requests[k] == RequestFor(mediaType, sections[k])
    ensures reply.Ok? ==> |requests| == |sections|
    ensures reply.Fail? ==> 0 < |requests| && provider(requests[|requests| - 1]).FetchFailed?
    ensures reply.Fail? ==> forall k :: 0 <= k < |requests| - 1 ==> provider(requests[k]).Fetched?
  {
    var result: map<int, seq<Item>> := map[];
    requests := [];
    var i := 0;
    while i < |sections|
      invariant 0 <= i <= |sections|
      invariant |requests| == i
      invariant forall k :: 0 <= k < i ==> requests[k] == RequestFor(mediaType, sections[k])
      invariant forall k :: 0 <= k < i ==> provider(requests[k]).Fetched?
      invariant result == SectionsOf(mediaType, sections[..i], provider, reshape)
    {
      var request := RequestFor(mediaType, sections[i]);
      requests := requests + [request];
      var response := provider(request);
      if response.FetchFailed? {
        return requests, Fail(500, "Genre homepage fetch failed");
      }
      SectionsOfSnoc(mediaType, sections, provider, reshape, i);
      result := result[sections[i].genreId := reshape(response.results)];
      i := i + 1;
    }
    assert sections[..i] == sections;
    reply := Ok(result);
  }

  /** The route: the media type falls back to "movie" when absent or empty;
      a type with no section table is a 400. */
  method HomepageGenres(mediaType: Option<string>, provider: SectionRequest -> Fetch)
    returns (reply: RouteResult<map<int, seq<Item>>>)
    ensures var t := OrElse(mediaType, "movie");
      SectionTable(t).None? <==> reply == Fail(400, "Unsupported media type")
    ensures var t := OrElse(mediaType, "movie");
      SectionTable(t).Some? && reply.Ok? ==> reply.value.Keys == GenreIds(SectionTable(t).value)
    ensures var t := OrElse(mediaType, "movie");
      SectionTable(t).Some? ==>
        && (reply.Ok? <==> forall s :: s in SectionTable(t).value ==> provider(RequestFor(t, s)).Fetched?)
        && (reply.Fail? ==> reply == Fail(500, "Genre homepage fetch failed"))
        && (reply.Ok? ==> forall s :: s in SectionTable(t).value ==>
              reply.value[s.genreId] == SectionItems(provider(RequestFor(t, s)).results, t))
    ensures var t := OrElse(mediaType, "movie");
      SectionTable(t).Some? && reply.Ok? ==> forall g :: g in reply.value ==>
        |reply.value[g]| <= ListLimit &&
        forall it :: it in reply.value[g] ==> it.poster.Some? && Truthy(it.title) && it.mediaType == t
  {
    var t := OrElse(mediaType, "movie");
    var table := SectionTable(t);
    if table.None? {
      return Fail(400, "Unsupported media type");
    }
    SectionTablesAreDistinct(t);
    var reshape := results => SectionItems(results, t);
    var requests;
    requests, reply := FillSections(t, table.value, provider, reshape);
    if reply.Ok? {
      SectionsOfKeys(t, table.value, provider, reshape);
      forall s | s in table.value
        ensures reply.value[s.genreId] == SectionItems(provider(RequestFor(t, s)).results, t)
      {
        var k :| 0 <= k < |table.value| && table.value[k] == s;
        SectionsOfAt(t, table.value, provider, reshape, k);
      }
      forall g | g in reply.value
        ensures |reply.value[g]| <= ListLimit
        ensures forall it :: it in reply.value[g] ==> it.poster.Some? && Truthy(it.title) && it.mediaType == t
      {
        var k :| 0 <= k < |table.value| && table.value[k].genreId == g;
        SectionsOfAt(t, table.value, provider, reshape, k);
        SectionItemsAreDisplayable(provider(RequestFor(t, table.value[k])).results, t);
      }
    }
  }
}
