/** The filter / slice / map chains of server.js that turn a provider result
    list into client items, the TV season list of /details, and the page and
    item choice of /random with the random draws given as indices. */
module Pipelines {
  import opened Js
  import opened Normalize

  const TopPicksLimit: nat := 3
  const ListLimit: nat := 10

  /** `item.id && item.poster_path && (item.title || item.name)`. */
  predicate Listable(item: RawItem) {
    TruthyInt(item.id) && Truthy(item.posterPath) && (Truthy(item.title) || Truthy(item.name))
  }

  /** `item.poster_path && (item.title || item.name)`, the homepage's test, which omits the id. */
  predicate Displayable(item: RawItem) {
    Truthy(item.posterPath) && (Truthy(item.title) || Truthy(item.name))
  }

  /** `.map(item => normalizeTMDBItem(item, type))`. */
  function NormalizeAll(items: seq<RawItem>, mediaType: string): (r: seq<Item>)
    ensures |r| == |items|
    ensures forall k :: 0 <= k < |items| ==> r[k] == NormalizeItem(items[k], mediaType)
  {
    seq(|items|, k requires 0 <= k < |items| => NormalizeItem(items[k], mediaType))
  }

  /** `results.filter(keep).slice(0, limit).map(normalize)`. */
  function Pipeline(results: seq<RawItem>, keep: RawItem -> bool, limit: nat, mediaType: string): (r: seq<Item>)
    ensures |r| <= limit
  {
    NormalizeAll(Take(Filter(results, keep), limit), mediaType)
  }

  /** /genre/top: at most three listable items. */
  function TopPicks(results: seq<RawItem>, mediaType: string): (r: seq<Item>)
    ensures |r| <= TopPicksLimit
  {
    Pipeline(results, Listable, TopPicksLimit, mediaType)
  }

  /** One /genre/combos row: at most ten listable items. */
  function ComboItems(results: seq<RawItem>, mediaType: string): (r: seq<Item>)
    ensures |r| <= ListLimit
  {
    Pipeline(results, Listable, ListLimit, mediaType)
  }

  /** One /homepage/genres section: at most ten displayable items. */
  function SectionItems(results: seq<RawItem>, mediaType: string): (r: seq<Item>)
    ensures |r| <= ListLimit
  {
    Pipeline(results, Displayable, ListLimit, mediaType)
  }

  /** The `k`-th item a pipeline emits is the normalization of the `k`-th
      input that passed the filter; there are at most `limit` of them, and
      fewer only when fewer inputs pass. */
  lemma PipelineItems(results: seq<RawItem>, keep: RawItem -> bool, limit: nat, mediaType: string)
    ensures |Pipeline(results, keep, limit, mediaType)| <= limit
    ensures |Pipeline(results, keep, limit, mediaType)| <= |results|
    ensures |Pipeline(results, keep, limit, mediaType)| == limit ||
            |Pipeline(results, keep, limit, mediaType)| == |Filter(results, keep)|
    ensures forall k :: 0 <= k < |Pipeline(results, keep, limit, mediaType)| ==>
              k < |Filter(results, keep)| && Filter(results, keep)[k] in results && keep(Filter(results, keep)[k]) &&
              Pipeline(results, keep, limit, mediaType)[k] == NormalizeItem(Filter(results, keep)[k], mediaType)
  {
    var kept := Filter(results, keep);
    var taken := Take(kept, limit);
    forall k | 0 <= k < |Pipeline(results, keep, limit, mediaType)|
      ensures k < |kept| && Pipeline(results, keep, limit, mediaType)[k] == NormalizeItem(kept[k], mediaType)
    {
      assert taken[k] == kept[k];
    }
  }

  /** The pipeline keeps the input order: the items drawn from a list are a
      prefix of those drawn from any extension of it. */
  lemma PipelineKeepsOrder(a: seq<RawItem>, b: seq<RawItem>, keep: RawItem -> bool, limit: nat, mediaType: string)
    ensures Pipeline(a, keep, limit, mediaType) <= Pipeline(a + b, keep, limit, mediaType)
  {
    FilterAppend(a, b, keep);
    var ka, kab := Take(Filter(a, keep), limit), Take(Filter(a + b, keep), limit);
    assert ka <= kab;
    var ra, rab := Pipeline(a, keep, limit, mediaType), Pipeline(a + b, keep, limit, mediaType);
    forall k | 0 <= k < |ra| ensures ra[k] == rab[k] {
      assert ka[k] == kab[k];
    }
  }

  /** When every input passes and there are no more than `limit`, the
      pipeline normalizes them all, one for one. */
  lemma PipelineKeepsAll(results: seq<RawItem>, keep: RawItem -> bool, limit: nat, mediaType: string)
    requires |results| <= limit
    requires forall k :: 0 <= k < |results| ==> keep(results[k])
    ensures Pipeline(results, keep, limit, mediaType) == NormalizeAll(results, mediaType)
  {
    FilterAllKept(results, keep);
  }

  /** Every item of /genre/top and of a combos row has an id, a poster URL
      and a title, and there are at most three and ten of them. */
  lemma ListedItemsAreComplete(results: seq<RawItem>, mediaType: string)
    ensures |TopPicks(results, mediaType)| <= 3 && |ComboItems(results, mediaType)| <= 10
    ensures forall it :: it in TopPicks(results, mediaType) || it in ComboItems(results, mediaType) ==>
              TruthyInt(it.tmdbId) && it.poster.Some? && Truthy(it.title) && it.mediaType == mediaType
  {
    PipelineItems(results, Listable, TopPicksLimit, mediaType);
    PipelineItems(results, Listable, ListLimit, mediaType);
    forall x | Listable(x)
      ensures var it := NormalizeItem(x, mediaType);
        TruthyInt(it.tmdbId) && it.poster.Some? && Truthy(it.title)
    {
      ImagesOfItem(x, mediaType);
      OtherFieldsOfItem(x, mediaType);
    }
  }

  /** Every homepage section item has a poster URL and a title (its id is not checked). */
  lemma SectionItemsAreDisplayable(results: seq<RawItem>, mediaType: string)
    ensures |SectionItems(results, mediaType)| <= 10
    ensures forall it :: it in SectionItems(results, mediaType) ==>
              it.poster.Some? && Truthy(it.title) && it.mediaType == mediaType
  {
    PipelineItems(results, Displayable, ListLimit, mediaType);
    forall x | Displayable(x)
      ensures var it := NormalizeItem(x, mediaType); it.poster.Some? && Truthy(it.title)
    {
      ImagesOfItem(x, mediaType);
      OtherFieldsOfItem(x, mediaType);
    }
  }

  // ---------------------------------------------------------------------------
  // TV seasons of /details

  const NoImagePoster: string := "https://placehold.co/300x450?text=No+Image"

  datatype RawSeason = RawSeason(seasonNumber: Option<int>, name: Option<string>,
                                 posterPath: Option<string>, episodeCount: Option<int>)

  datatype Season = Season(seasonNumber: Option<int>, name: Option<string>,
                           poster: string, episodeCount: Option<int>)

  /** `s.season_number !== 0`: specials (season 0) are dropped; a season
      without a number is kept. */
  predicate NotSpecials(s: RawSeason) {
    s.seasonNumber != Some(0)
  }

  function SeasonOf(s: RawSeason): (r: Season)
    ensures r.poster == NoImagePoster || (Truthy(s.posterPath) && r.poster == PosterBase + s.posterPath.value)
    ensures Truthy(s.posterPath) ==> r.poster != NoImagePoster
    ensures r.seasonNumber == s.seasonNumber && r.name == s.name && r.episodeCount == s.episodeCount
  {
    assert Truthy(s.posterPath) ==> (PosterBase + s.posterPath.value)[8] != NoImagePoster[8];
    Season(s.seasonNumber, s.name,
           if Truthy(s.posterPath) then PosterBase + s.posterPath.value else NoImagePoster,
           s.episodeCount)
  }

  function MapSeasons(ss: seq<RawSeason>): (r: seq<Season>)
    ensures |r| == |ss|
    ensures forall k :: 0 <= k < |ss| ==> r[k] == SeasonOf(ss[k])
  {
    seq(|ss|, k requires 0 <= k < |ss| => SeasonOf(ss[k]))
  }

  /** `(data.seasons || []).filter(s => s.season_number !== 0).map(...)`. */
  function Seasons(seasons: Option<seq<RawSeason>>): seq<Season> {
    MapSeasons(Filter(if seasons.Some? then seasons.value else [], NotSpecials))
  }

  /** No season 0 survives, every other season does (in order, by
      FilterAppend), the k-th season shown is the k-th non-special input
      season, and every season has a poster URL. */
  lemma SeasonsShape(seasons: seq<RawSeason>)
    ensures Seasons(None) == []
    ensures var r := Seasons(Some(seasons));
      && |r| <= |seasons|
      && (forall k :: 0 <= k < |r| ==> r[k].seasonNumber != Some(0) && r[k].poster != "")
      && (forall k :: 0 <= k < |r| ==> var s := Filter(seasons, NotSpecials)[k];
            s in seasons && NotSpecials(s) && r[k] == SeasonOf(s))
      && (forall s :: s in seasons && NotSpecials(s) ==> SeasonOf(s) in r)
  {
    var kept := Filter(seasons, NotSpecials);
    var r := Seasons(Some(seasons));
    forall s | s in seasons && NotSpecials(s) ensures SeasonOf(s) in r {
      var k :| 0 <= k < |kept| && kept[k] == s;
      assert r[k] == SeasonOf(s);
    }
    forall k | 0 <= k < |r| ensures r[k].seasonNumber != Some(0) && r[k].poster != "" {
      assert NotSpecials(kept[k]);
    }
  }

  /** Season order is kept: the seasons of a list are a prefix of those of any extension. */
  lemma SeasonsKeepOrder(a: seq<RawSeason>, b: seq<RawSeason>)
    ensures Seasons(Some(a + b)) == Seasons(Some(a)) + Seasons(Some(b))
  {
    FilterAppend(a, b, NotSpecials);
  }

  // ---------------------------------------------------------------------------
  // /random

  /** The provider serves at most 500 pages. */
  const MaxPages: int := 500

  function ClampPages(totalPages: int): (r: int)
    ensures r <= MaxPages
    ensures r == totalPages || (totalPages > MaxPages && r == MaxPages)
  {
    if totalPages > MaxPages then MaxPages else totalPages
  }

  /** The page /random fetches: none when there are no pages, otherwise
      `index + 1` for the random draw `index = floor(random * totalPages)`. */
  function RandomPage(totalPages: int, index: int): (r: Option<int>)
    requires 0 <= index
    requires ClampPages(totalPages) < 1 || index < ClampPages(totalPages)
    ensures r.None? <==> totalPages < 1
    ensures r.Some? ==> 1 <= r.value <= ClampPages(totalPages) && r.value <= MaxPages
    ensures r.Some? ==> r.value - 1 == index
  {
    var pages := ClampPages(totalPages);
    if pages < 1 then None else Some(index + 1)
  }

  predicate HasPoster(item: RawItem) {
    Truthy(item.posterPath)
  }

  /** The item /random returns from the chosen page: none when no result has
      a poster, otherwise the normalization of the drawn one among those with
      a poster. */
  function RandomItem(results: seq<RawItem>, index: nat, mediaType: string): (r: Option<Item>)
    requires |Filter(results, HasPoster)| == 0 || index < |Filter(results, HasPoster)|
    ensures r.None? <==> forall x :: x in results ==> !HasPoster(x)
    ensures r.Some? ==> r.value.poster.Some?
    ensures r.Some? ==> exists x :: x in results && HasPoster(x) && r.value == NormalizeItem(x, mediaType)
  {
    var withPoster := Filter(results, HasPoster);
    if |withPoster| == 0 then None
    else
      var x := withPoster[index];
      ImagesOfItem(x, mediaType);
      Some(NormalizeItem(x, mediaType))
  }
}
