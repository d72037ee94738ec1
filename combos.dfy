/** /genre/combos (server.js): three fixed rows for a genre plus up to three
    "genre + related genre" rows, each fetched in turn from the provider; the
    reply maps each row caption to its items, omitting empty rows. */
module Combos {
  import opened Js
  import opened Normalize
  import opened Pipelines

  datatype Genre = Genre(id: string, name: string)

  /** The movie genre table, in the order `Object.entries` yields it: keys that
      look like integers come out in ascending numeric order. */
  const MovieGenres: seq<Genre> := [
    Genre("12", "Adventure"), Genre("14", "Fantasy"), Genre("16", "Animation"),
    Genre("18", "Drama"), Genre("27", "Horror"), Genre("28", "Action"),
    Genre("35", "Comedy"), Genre("36", "History"), Genre("37", "Western"),
    Genre("53", "Thriller"), Genre("80", "Crime"), Genre("99", "Documentary"),
    Genre("878", "Sci-Fi"), Genre("9648", "Mystery"), Genre("10402", "Music"),
    Genre("10749", "Romance"), Genre("10751", "Family"), Genre("10752", "War"),
    Genre("10770", "TV Movie")]

  /** The TV genre table, in `Object.entries` order. */
  const TvGenres: seq<Genre> := [
    Genre("16", "Animation"), Genre("18", "Drama"), Genre("35", "Comedy"),
    Genre("37", "Western"), Genre("80", "Crime"), Genre("99", "Documentary"),
    Genre("9648", "Mystery"), Genre("10751", "Family"), Genre("10759", "Action & Adventure"),
    Genre("10762", "Kids"), Genre("10763", "News"), Genre("10764", "Reality"),
    Genre("10765", "Sci-Fi & Fantasy"), Genre("10766", "Soap"), Genre("10767", "Talk"),
    Genre("10768", "War & Politics")]

  /** `type === 'tv'` selects the TV table; every other type the movie table. */
  function GenreTable(mediaType: string): seq<Genre> {
    if mediaType == "tv" then TvGenres else MovieGenres
  }

  /** `genreMap[id]`. */
  function GenreName(table: seq<Genre>, id: string): (r: Option<string>)
    ensures r.Some? <==> exists g :: g in table && g.id == id
    ensures r.Some? ==> Genre(id, r.value) in table
  {
    if table == [] then None
    else if table[0].id == id then Some(table[0].name)
    else GenreName(table[1..], id)
  }

  /** `curatedTVCombos[genreId]`: hand-picked partners for five TV genres. */
  function CuratedTv(id: string): Option<seq<string>> {
    if id == "10759" then Some(["35", "18"])
    else if id == "18" then Some(["9648", "10765"])
    else if id == "10765" then Some(["18", "9648"])
    else if id == "35" then Some(["10759"])
    else if id == "9648" then Some(["18"])
    else None
  }

  /** One curated id after `.map(id => [id, genreMap[id]]).filter(([id, name]) => id && name)`:
      kept, with its name, exactly when both are truthy. */
  function Resolve(id: string, table: seq<Genre>): seq<Genre> {
    var name := GenreName(table, id);
    if id != "" && Truthy(name) then [Genre(id, name.value)] else []
  }

  /** The curated ids, resolved in order. */
  function ResolveIds(ids: seq<string>, table: seq<Genre>): (r: seq<Genre>)
    ensures |r| <= |ids|
    ensures forall g :: g in r ==> g in table && g.id in ids && g.id != "" && g.name != ""
    ensures forall id :: id in ids && id != "" && Truthy(GenreName(table, id)) ==>
              Genre(id, GenreName(table, id).value) in r
  {
    if ids == [] then [] else Resolve(ids[0], table) + ResolveIds(ids[1..], table)
  }

  /** Resolving a list of ids resolves each part in turn, so the curated
      order is kept. */
  lemma {:induction false} ResolveIdsAppend(a: seq<string>, b: seq<string>, table: seq<Genre>)
    ensures ResolveIds(a + b, table) == ResolveIds(a, table) + ResolveIds(b, table)
  {
    if a == [] {
      assert a + b == b;
    } else {
      assert (a + b)[0] == a[0] && (a + b)[1..] == a[1..] + b;
      ResolveIdsAppend(a[1..], b, table);
    }
  }

  /** `genreMap[id]` finds the first entry with that id. */
  lemma {:induction false} GenreNameAt(table: seq<Genre>, i: nat)
    requires i < |table|
    requires forall j :: 0 <= j < i ==> table[j].id != table[i].id
    ensures GenreName(table, table[i].id) == Some(table[i].name)
  {
    if i > 0 {
      assert table[1..][i - 1] == table[i];
      forall j | 0 <= j < i - 1 ensures table[1..][j].id != table[1..][i - 1].id {
        assert table[1..][j] == table[j + 1];
      }
      GenreNameAt(table[1..], i - 1);
    }
  }

  predicate NotGenre(genreId: string, g: Genre) {
    g.id != genreId
  }

  /** `Object.entries(genreMap).filter(([id]) => id !== genreId)`. */
  function OtherGenres(table: seq<Genre>, genreId: string): seq<Genre> {
    Filter(table, g => NotGenre(genreId, g))
  }

  /** `relatedCombos`: the curated TV partners when there are any, otherwise
      the first three other genres of the table. */
  function RelatedGenres(genreId: string, mediaType: string): (r: seq<Genre>)
    ensures mediaType == "tv" && CuratedTv(genreId).Some? ==>
              forall g :: g in r ==> g in TvGenres && g.id in CuratedTv(genreId).value
    ensures mediaType == "tv" && CuratedTv(genreId).Some? ==>
              forall id :: id in CuratedTv(genreId).value && id != "" && Truthy(GenreName(TvGenres, id)) ==>
                Genre(id, GenreName(TvGenres, id).value) in r
    ensures !(mediaType == "tv" && CuratedTv(genreId).Some?) ==>
              |r| <= 3 && forall g :: g in r ==> g in GenreTable(mediaType) && g.id != genreId
    ensures !(mediaType == "tv" && CuratedTv(genreId).Some?) ==>
              var others := OtherGenres(GenreTable(mediaType), genreId);
              r <= others && |r| == (if |others| < 3 then |others| else 3)
  {
    if mediaType == "tv" && CuratedTv(genreId).Some? then
      ResolveIds(CuratedTv(genreId).value, TvGenres)
    else
      Take(OtherGenres(GenreTable(mediaType), genreId), 3)
  }

  /** A name found in the front of a table is the one the whole table gives. */
  lemma {:induction false} GenreNameInFront(front: seq<Genre>, rest: seq<Genre>, id: string)
    requires GenreName(front, id).Some?
    ensures GenreName(front + rest, id) == GenreName(front, id)
  {
    assert (front + rest)[0] == front[0];
    if front[0].id != id {
      assert (front + rest)[1..] == front[1..] + rest;
      GenreNameInFront(front[1..], rest, id);
    }
  }

  /** The first three entries of the TV table. */
  lemma TvGenresFront()
    ensures TvGenres == [Genre("16", "Animation"), Genre("18", "Drama"), Genre("35", "Comedy")] + TvGenres[3..]
  {
    assert TvGenres[..3] == [Genre("16", "Animation"), Genre("18", "Drama"), Genre("35", "Comedy")];
    assert TvGenres == TvGenres[..3] + TvGenres[3..];
  }

  /** Comedy and Drama resolve to their TV names. */
  lemma ComedyAndDramaOnTv()
    ensures GenreName(TvGenres, "35") == Some("Comedy")
    ensures GenreName(TvGenres, "18") == Some("Drama")
  {
    var front := [Genre("16", "Animation"), Genre("18", "Drama"), Genre("35", "Comedy")];
    TvGenresFront();
    assert GenreName(front, "35") == Some("Comedy") by {
      assert front[1..][1..] == [Genre("35", "Comedy")];
    }
    assert GenreName(front, "18") == Some("Drama") by {
      assert front[1..] == [Genre("18", "Drama"), Genre("35", "Comedy")];
    }
    GenreNameInFront(front, TvGenres[3..], "35");
    GenreNameInFront(front, TvGenres[3..], "18");
  }

  /** Two ids resolve one after the other. */
  lemma ResolveTwo(a: string, b: string, table: seq<Genre>)
    ensures ResolveIds([a, b], table) == Resolve(a, table) + Resolve(b, table)
  {
    assert [a, b][1..] == [b] && [b][1..] == [];
  }

  /** The curated partners of Action & Adventure on TV, in order. */
  lemma CuratedActionPartners()
    ensures RelatedGenres("10759", "tv") == [Genre("35", "Comedy"), Genre("18", "Drama")]
  {
    ComedyAndDramaOnTv();
    ResolveTwo("35", "18", TvGenres);
  }

  /** No two entries of a table share an id. */
  predicate DistinctIds(table: seq<Genre>) {
    forall i, j :: 0 <= i < j < |table| ==> table[i].id != table[j].id
  }

  /** Filtering out one id drops at most one entry of a table with distinct ids. */
  lemma {:induction false} FilterOtherGenres(table: seq<Genre>, genreId: string)
    requires DistinctIds(table)
    ensures |OtherGenres(table, genreId)| >= |table| - 1
  {
    var keep := g => NotGenre(genreId, g);
    if table != [] {
      assert DistinctIds(table[1..]) by {
        forall i, j | 0 <= i < j < |table[1..]| ensures table[1..][i].id != table[1..][j].id {
          assert table[1..][i] == table[i + 1] && table[1..][j] == table[j + 1];
        }
      }
      FilterOtherGenres(table[1..], genreId);
      if !keep(table[0]) {
        forall k | 0 <= k < |table[1..]| ensures keep(table[1..][k]) {
          assert table[1..][k] == table[k + 1];
        }
        FilterAllKept(table[1..], keep);
      }
    }
  }

  /** The first four ids of either table differ. */
  lemma FirstFourIdsDistinct(mediaType: string)
    ensures DistinctIds(GenreTable(mediaType)[..4])
  {
    if mediaType == "tv" {
      assert TvGenres[..4] ==
        [Genre("16", "Animation"), Genre("18", "Drama"), Genre("35", "Comedy"), Genre("37", "Western")];
    } else {
      assert MovieGenres[..4] ==
        [Genre("12", "Adventure"), Genre("14", "Fantasy"), Genre("16", "Animation"), Genre("18", "Drama")];
    }
  }

  /** Outside the curated TV case there are always exactly three related
      genres: the first four ids of either table differ, so at most one of
      them is the requested id. */
  lemma ThreeRelatedGenres(genreId: string, mediaType: string)
    requires !(mediaType == "tv" && CuratedTv(genreId).Some?)
    ensures |RelatedGenres(genreId, mediaType)| == 3
  {
    var table := GenreTable(mediaType);
    FirstFourIdsDistinct(mediaType);
    FilterOtherGenres(table[..4], genreId);
    assert table == table[..4] + table[4..];
    FilterAppend(table[..4], table[4..], g => NotGenre(genreId, g));
  }

  // ---------------------------------------------------------------------------
  // The filter list

  const PopularityDesc: string := "popularity.desc"
  const VoteAverageDesc: string := "vote_average.desc"
  const ReleaseDateDesc: string := "release_date.desc"

  datatype ComboFilter = ComboFilter(caption: string, sortBy: string, withGenres: string)

  /** The three rows every genre gets. */
  function BaseFilters(genreId: string): seq<ComboFilter> {
    [ComboFilter("Fan Favorites", PopularityDesc, genreId),
     ComboFilter("Top Rated", VoteAverageDesc, genreId),
     ComboFilter("Latest Releases", ReleaseDateDesc, genreId)]
  }

  /** The row for a related genre: `${genreName} + ${relatedName}`, sorted by
      popularity, with both genres. */
  function PairFilter(genreName: Option<string>, genreId: string, g: Genre): (f: ComboFilter)
    ensures f.caption == Render(genreName) + " + " + g.name
    ensures f.withGenres == genreId + "," + g.id
    ensures f.sortBy == PopularityDesc
  {
    ComboFilter(Render(genreName) + " + " + g.name, PopularityDesc, genreId + "," + g.id)
  }

  /** The rows of the route: the three fixed ones, then one per related genre. */
  function FilterList(genreName: Option<string>, genreId: string, related: seq<Genre>): (fs: seq<ComboFilter>)
    ensures |fs| == 3 + |related|
  {
    BaseFilters(genreId) + seq(|related|, k requires 0 <= k < |related| => PairFilter(genreName, genreId, related[k]))
  }

  /** The rows of the route for a genre id and a media type. */
  function RouteFilters(genreId: string, mediaType: string): seq<ComboFilter> {
    FilterList(GenreName(GenreTable(mediaType), genreId), genreId, RelatedGenres(genreId, mediaType))
  }

  /** `filters` after the `forEach` that pushes one row per related genre
      onto the three fixed rows. */
  method BuildFilters(genreName: Option<string>, genreId: string, related: seq<Genre>)
    returns (filters: seq<ComboFilter>)
    ensures |filters| == 3 + |related|
    ensures filters[..3] == BaseFilters(genreId)
    ensures forall i :: 3 <= i < |filters| ==> filters[i] == PairFilter(genreName, genreId, related[i - 3])
    ensures filters == FilterList(genreName, genreId, related)
  {
    filters := BaseFilters(genreId);
    var i := 0;
    while i < |related|
      invariant 0 <= i <= |related|
      invariant |filters| == 3 + i
      invariant filters[..3] == BaseFilters(genreId)
      invariant forall j :: 3 <= j < |filters| ==> filters[j] == PairFilter(genreName, genreId, related[j - 3])
    {
      filters := filters + [PairFilter(genreName, genreId, related[i])];
      i := i + 1;
    }
  }

  /** The added rows never pair a genre with itself outside the curated case,
      and each one's caption and genres name the pair. */
  lemma PairFiltersNamePair(genreId: string, mediaType: string, i: nat)
    requires i < |RelatedGenres(genreId, mediaType)|
    ensures var g := RelatedGenres(genreId, mediaType)[i];
      var f := PairFilter(GenreName(GenreTable(mediaType), genreId), genreId, g);
      && f.withGenres == genreId + "," + g.id
      && (!(mediaType == "tv" && CuratedTv(genreId).Some?) ==> g.id != genreId)
      && (exists name :: f.caption == name + " + " + g.name)
  {
    var g := RelatedGenres(genreId, mediaType)[i];
    assert g in RelatedGenres(genreId, mediaType);
    var f := PairFilter(GenreName(GenreTable(mediaType), genreId), genreId, g);
    assert f.caption == Render(GenreName(GenreTable(mediaType), genreId)) + " + " + g.name;
  }

  // ---------------------------------------------------------------------------
  // comboResults

  /** A provider reply: the `results` list, or a failed request. A combos
      provider answers each row's request (the request itself is ComboParams). */
  datatype Fetch = Fetched(results: seq<RawItem>) | FetchFailed

  /** What a route answers: a JSON body, or an error status with its message. */
  datatype RouteResult<T> = Ok(value: T) | Fail(status: int, error: string)

  const VoteCountFloor: int := 300

  /** The discover parameters of one row (the API key is not modelled). */
  function ComboParams(f: ComboFilter): (p: map<string, Param>)
    ensures "vote_count.gte" in p <==> f.sortBy == VoteAverageDesc
    ensures "vote_count.gte" in p ==> p["vote_count.gte"] == Number(300)
    ensures "with_genres" in p && p["with_genres"] == Text(f.withGenres)
    ensures "sort_by" in p && p["sort_by"] == Text(f.sortBy)
    ensures p.Keys ==
              {"with_genres", "sort_by", "include_adult", "include_video", "certification.lte",
               "with_runtime.gte", "with_original_language", "language", "page"}
              + (if f.sortBy == VoteAverageDesc then {"vote_count.gte"} else {})
    ensures Maps(p, "include_adult", Flag(false)) && Maps(p, "include_video", Flag(false))
    ensures Maps(p, "certification.lte", Text("R")) && Maps(p, "with_runtime.gte", Number(60))
    ensures Maps(p, "with_original_language", Text("en")) && Maps(p, "language", Text("en-US"))
    ensures Maps(p, "page", Number(1))
  {
    var base := map[
      "with_genres" := Text(f.withGenres),
      "sort_by" := Text(f.sortBy),
      "include_adult" := Flag(false),
      "include_video" := Flag(false),
      "certification.lte" := Text("R"),
      "with_runtime.gte" := Number(60),
      "with_original_language" := Text("en"),
      "language" := Text("en-US"),
      "page" := Number(1)];
    if f.sortBy == VoteAverageDesc then base["vote_count.gte" := Number(VoteCountFloor)] else base
  }

  /** The rows of the fixed list only the "Top Rated" one asks for a vote-count floor. */
  lemma OnlyTopRatedHasVoteFloor(genreName: Option<string>, genreId: string, related: seq<Genre>, i: nat)
    requires i < 3 + |related|
    ensures ("vote_count.gte" in ComboParams(FilterList(genreName, genreId, related)[i])) <==> i == 1
  {
    var fs := FilterList(genreName, genreId, related);
    if i >= 3 {
      assert fs[i] == PairFilter(genreName, genreId, related[i - 3]);
    }
  }

  /** A fetched row: its caption and the items its results produced. */
  datatype Row = Row(caption: string, items: seq<Item>)

  /** The row the provider's answer to `f` yields; `reshape` is the row's
      filter / slice / map chain (ComboItems in the route). */
  function RowOf(f: ComboFilter, provider: ComboFilter -> Fetch, reshape: seq<RawItem> -> seq<Item>): (r: Row)
    requires provider(f).Fetched?
    ensures r.caption == f.caption
  {
    Row(f.caption, reshape(provider(f).results))
  }

  /** `comboResults` after the given rows, in order: a row with items sets its
      caption, and a later row with the same caption replaces it. */
  function ComboTable(rows: seq<Row>): (r: map<string, seq<Item>>)
    ensures forall caption :: caption in r ==> r[caption] != []
    decreases |rows|
  {
    if rows == [] then map[]
    else
      var n := |rows| - 1;
      var before := ComboTable(rows[..n]);
      if |rows[n].items| > 0 then before[rows[n].caption := rows[n].items] else before
  }

  /** A caption is in the table exactly when some row with that caption had
      items, and its entry is the non-empty item list of one such row. */
  lemma {:induction false} ComboTableCaptions(rows: seq<Row>, caption: string)
    ensures caption in ComboTable(rows) <==>
              exists i :: 0 <= i < |rows| && rows[i].caption == caption && rows[i].items != []
    ensures caption in ComboTable(rows) ==>
              exists i :: 0 <= i < |rows| && rows[i].caption == caption &&
                          rows[i].items != [] && ComboTable(rows)[caption] == rows[i].items
    decreases |rows|
  {
    if rows != [] {
      var n := |rows| - 1;
      ComboTableCaptions(rows[..n], caption);
      if rows[n].caption == caption && rows[n].items != [] {
        assert ComboTable(rows)[caption] == rows[n].items;
      } else {
        assert ComboTable(rows) == ComboTable(rows[..n]) ||
               (rows[n].caption != caption && ComboTable(rows) == ComboTable(rows[..n])[rows[n].caption := rows[n].items]);
        if exists i :: 0 <= i < |rows| && rows[i].caption == caption && rows[i].items != [] {
          var i :| 0 <= i < |rows| && rows[i].caption == caption && rows[i].items != [];
          assert i < n && rows[..n][i] == rows[i];
        }
        if caption in ComboTable(rows) {
          var i :| 0 <= i < n && rows[..n][i].caption == caption &&
                   rows[..n][i].items != [] && ComboTable(rows[..n])[caption] == rows[..n][i].items;
          assert rows[i] == rows[..n][i];
        }
      }
    }
  }

  /** With distinct captions, each row with items appears under its own
      caption with exactly its items. */
  lemma {:induction false} ComboTableEntries(rows: seq<Row>, i: nat)
    requires forall j, k :: 0 <= j < k < |rows| ==> rows[j].caption != rows[k].caption
    requires i < |rows| && rows[i].items != []
    ensures rows[i].caption in ComboTable(rows)
    ensures ComboTable(rows)[rows[i].caption] == rows[i].items
    decreases |rows|
  {
    var n := |rows| - 1;
    if i < n {
      assert rows[..n][i] == rows[i];
      ComboTableEntries(rows[..n], i);
    }
  }

  /** The requests made for the given rows, in order. */
  function ParamsOf(filters: seq<ComboFilter>): (r: seq<map<string, Param>>)
    ensures |r| == |filters|
    decreases |filters|
  {
    if filters == [] then [] else ParamsOf(filters[..|filters| - 1]) + [ComboParams(filters[|filters| - 1])]
  }

  lemma {:induction false} ParamsOfAt(filters: seq<ComboFilter>, i: nat)
    requires i < |filters|
    ensures ParamsOf(filters)[i] == ComboParams(filters[i])
    decreases |filters|
  {
    var n := |filters| - 1;
    if i < n {
      assert filters[..n][i] == filters[i];
      ParamsOfAt(filters[..n], i);
    }
  }

  /** The rows the provider's answers yield, in order. */
  function RowsOf(filters: seq<ComboFilter>, provider: ComboFilter -> Fetch, reshape: seq<RawItem> -> seq<Item>): (r: seq<Row>)
    requires forall i :: 0 <= i < |filters| ==> provider(filters[i]).Fetched?
    ensures |r| == |filters|
    decreases |filters|
  {
    if filters == [] then []
    else
      var n := |filters| - 1;
      RowsOf(filters[..n], provider, reshape) + [RowOf(filters[n], provider, reshape)]
  }

  lemma {:induction false} RowsOfAt(filters: seq<ComboFilter>, provider: ComboFilter -> Fetch, reshape: seq<RawItem> -> seq<Item>, i: nat)
    requires forall j :: 0 <= j < |filters| ==> provider(filters[j]).Fetched?
    requires i < |filters|
    ensures RowsOf(filters, provider, reshape)[i] == RowOf(filters[i], provider, reshape)
    decreases |filters|
  {
    var n := |filters| - 1;
    assert RowsOf(filters, provider, reshape) ==
           RowsOf(filters[..n], provider, reshape) + [RowOf(filters[n], provider, reshape)];
    if i < n {
      assert filters[..n][i] == filters[i];
      RowsOfAt(filters[..n], provider, reshape, i);
    }
  }

  /** One more fetched row extends RowsOf by that row. */
  lemma RowsOfSnoc(filters: seq<ComboFilter>, provider: ComboFilter -> Fetch, reshape: seq<RawItem> -> seq<Item>, i: nat)
    requires i < |filters|
    requires forall k :: 0 <= k <= i ==> provider(filters[k]).Fetched?
    ensures RowsOf(filters[..i + 1], provider, reshape) ==
            RowsOf(filters[..i], provider, reshape) + [RowOf(filters[i], provider, reshape)]
  {
    assert filters[..i + 1][..i] == filters[..i];
  }

  /** One more request extends ParamsOf by that request. */
  lemma ParamsOfSnoc(filters: seq<ComboFilter>, i: nat)
    requires i < |filters|
    ensures ParamsOf(filters[..i + 1]) == ParamsOf(filters[..i]) + [ComboParams(filters[i])]
  {
    assert filters[..i + 1][..i] == filters[..i];
  }

  /** One more row sets its caption when it has items, and changes nothing otherwise. */
  lemma ComboTableSnoc(rows: seq<Row>, row: Row)
    ensures ComboTable(rows + [row]) ==
              if |row.items| > 0 then ComboTable(rows)[row.caption := row.items] else ComboTable(rows)
  {
    assert (rows + [row])[..|rows|] == rows;
  }

  /** The `for` loop over the rows: one provider request per row, in order;
      the first failed request ends the route with a 500. Returns the
      requests made and the reply. */
  method ComboResults(filters: seq<ComboFilter>, provider: ComboFilter -> Fetch, reshape: seq<RawItem> -> seq<Item>)
    returns (requests: seq<map<string, Param>>, reply: RouteResult<map<string, seq<Item>>>)
    ensures |requests| <= |filters| && requests == ParamsOf(filters[..|requests|])
    ensures reply.Ok? <==> forall i :: 0 <= i < |filters| ==> provider(filters[i]).Fetched?
    ensures reply.Ok? ==> |requests| == |filters|
    ensures reply.Ok? ==> reply.value == ComboTable(RowsOf(filters, provider, reshape))
    ensures reply.Fail? ==> reply == Fail(500, "Combos fetch failed")
    ensures reply.Fail? ==> 0 < |requests| && provider(filters[|requests| - 1]).FetchFailed?
    ensures reply.Fail? ==> forall i :: 0 <= i < |requests| - 1 ==> provider(filters[i]).Fetched?
  {
    var comboResults: map<string, seq<Item>> := map[];
    requests := [];
    var i := 0;
    while i < |filters|
      invariant 0 <= i <= |filters|
      invariant requests == ParamsOf(filters[..i])
      invariant forall k :: 0 <= k < i ==> provider(filters[k]).Fetched?
      invariant comboResults == ComboTable(RowsOf(filters[..i], provider, reshape))
    {
      ParamsOfSnoc(filters, i);
      requests := requests + [ComboParams(filters[i])];
      var response := provider(filters[i]);
      if response.FetchFailed? {
        reply := Fail(500, "Combos fetch failed");
        return;
      }
      var row := RowOf(filters[i], provider, reshape);
      RowsOfSnoc(filters, provider, reshape, i);
      ComboTableSnoc(RowsOf(filters[..i], provider, reshape), row);
      if |row.items| > 0 {
        comboResults := comboResults[row.caption := row.items];
      }
      i := i + 1;
    }
    assert filters[..i] == filters;
    reply := Ok(comboResults);
  }

  /** The whole route: a missing id is a 400; otherwise the rows are built
      and fetched. The media type defaults to "movie". */
  method GenreCombos(id: Option<string>, mediaType: Option<string>, provider: ComboFilter -> Fetch)
    returns (reply: RouteResult<map<string, seq<Item>>>)
    ensures !Truthy(id) ==> reply == Fail(400, "Missing genre id")
    ensures Truthy(id) ==> var fs := RouteFilters(id.value, OrElse(mediaType, "movie"));
      && (reply.Ok? <==> forall i :: 0 <= i < |fs| ==> provider(fs[i]).Fetched?)
      && (reply.Fail? ==> reply == Fail(500, "Combos fetch failed"))
    ensures Truthy(id) && reply.Ok? ==>
      var t := OrElse(mediaType, "movie");
      reply.value == ComboTable(RowsOf(RouteFilters(id.value, t), provider, results => ComboItems(results, t)))
    ensures Truthy(id) && reply.Ok? ==>
              forall caption :: caption in reply.value ==> 0 < |reply.value[caption]| <= 10
  {
    if !Truthy(id) {
      return Fail(400, "Missing genre id");
    }
    var t := OrElse(mediaType, "movie");
    var genreName := GenreName(GenreTable(t), id.value);
    var filters := BuildFilters(genreName, id.value, RelatedGenres(id.value, t));
    var reshape := results => ComboItems(results, t);
    var requests;
    requests, reply := ComboResults(filters, provider, reshape);
    if reply.Ok? {
      var rows := RowsOf(filters, provider, reshape);
      forall caption | caption in reply.value ensures 0 < |reply.value[caption]| <= 10 {
        ComboTableCaptions(rows, caption);
        var i :| 0 <= i < |rows| && rows[i].caption == caption &&
                 rows[i].items != [] && reply.value[caption] == rows[i].items;
        RowsOfAt(filters, provider, reshape, i);
      }
    }
  }
}
