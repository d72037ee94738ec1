/** normalizeTMDBItem (server.js): reshape one movie or TV record of the
    metadata provider into the item schema the client consumes. */
module Normalize {
  import opened Js

  const PosterBase: string := "https://image.tmdb.org/t/p/w500"
  const BackdropBase: string := "https://image.tmdb.org/t/p/original"
  const NoYear: string := "N/A"

  /** The provider's fields the server reads; movies carry `title` and
      `release_date`, TV shows `name` and `first_air_date`. */
  datatype RawItem = RawItem(
    id: Option<int>,
    title: Option<string>,
    name: Option<string>,
    posterPath: Option<string>,
    backdropPath: Option<string>,
    releaseDate: Option<string>,
    firstAirDate: Option<string>,
    overview: Option<string>,
    voteAverage: Option<real>,
    runtime: Option<int>)

  /** The client-side item. */
  datatype Item = Item(
    tmdbId: Option<int>,
    title: Option<string>,
    poster: Option<string>,
    backdrop: Option<string>,
    releaseDate: string,
    year: string,
    overview: string,
    rating: real,
    runtime: Option<int>,
    genres: seq<string>,
    mediaType: string)

  /** An image URL is built only from a truthy path. */
  function ImageUrl(base: string, path: Option<string>): (r: Option<string>)
    ensures r.Some? <==> Truthy(path)
    ensures r.Some? ==> r.value == base + path.value && |r.value| > |base|
  {
    if Truthy(path) then Some(base + path.value) else None
  }

  /** `item.release_date || item.first_air_date || ''`. */
  function ReleaseDate(item: RawItem): (r: string)
    ensures r != "" <==> Truthy(item.releaseDate) || Truthy(item.firstAirDate)
    ensures Truthy(item.releaseDate) ==> r == item.releaseDate.value
    ensures !Truthy(item.releaseDate) && Truthy(item.firstAirDate) ==> r == item.firstAirDate.value
  {
    OrElse(item.releaseDate, OrElse(item.firstAirDate, ""))
  }

  /** `releaseDate.split('-')[0] || 'N/A'`. */
  function Year(releaseDate: string): (r: string)
    ensures r == NoYear || (r != "" && r <= releaseDate && '-' !in r)
    ensures releaseDate == "" || releaseDate[0] == '-' ==> r == NoYear
    ensures releaseDate != "" && releaseDate[0] != '-' ==>
              r <= releaseDate && '-' !in r && (|r| == |releaseDate| || releaseDate[|r|] == '-')
  {
    var head := BeforeFirst(releaseDate, '-');
    if head != "" then head else NoYear
  }

  /** A present, non-zero number, else the fallback. */
  function RatingOf(v: Option<real>): real {
    if v.Some? && v.value != 0.0 then v.value else 0.0
  }

  function RuntimeOf(v: Option<int>): Option<int> {
    if TruthyInt(v) then v else None
  }

  function NormalizeItem(item: RawItem, mediaType: string): Item {
    var poster := ImageUrl(PosterBase, item.posterPath);
    var backdrop := if Truthy(item.backdropPath) then ImageUrl(BackdropBase, item.backdropPath) else poster;
    var releaseDate := ReleaseDate(item);
    Item(
      item.id,
      Or(item.title, item.name),
      poster,
      backdrop,
      releaseDate,
      Year(releaseDate),
      OrElse(item.overview, ""),
      RatingOf(item.voteAverage),
      RuntimeOf(item.runtime),
      [],
      mediaType)
  }

  /** The poster is the w500 URL of a truthy `poster_path` and null otherwise;
      the backdrop is the original-size URL of a truthy `backdrop_path` and
      otherwise falls back to the poster. */
  lemma ImagesOfItem(item: RawItem, mediaType: string)
    ensures var r := NormalizeItem(item, mediaType);
      && (r.poster.Some? <==> Truthy(item.posterPath))
      && (Truthy(item.posterPath) ==> r.poster == Some(PosterBase + item.posterPath.value))
      && (Truthy(item.backdropPath) ==> r.backdrop == Some(BackdropBase + item.backdropPath.value))
      && (!Truthy(item.backdropPath) ==> r.backdrop == r.poster)
      && (r.backdrop.None? <==> !Truthy(item.posterPath) && !Truthy(item.backdropPath))
  {
  }

  /** `year` is "N/A" or a non-empty, dash-free prefix of `release_date`, and
      `release_date` is the first truthy of the two provider dates or "". */
  lemma DatesOfItem(item: RawItem, mediaType: string)
    ensures var r := NormalizeItem(item, mediaType);
      && r.releaseDate == ReleaseDate(item)
      && (r.year == NoYear || (r.year != "" && r.year <= r.releaseDate && '-' !in r.year))
      && (r.releaseDate == "" ==> r.year == NoYear)
      && (r.releaseDate != "" && r.releaseDate[0] != '-' ==> r.year == BeforeFirst(r.releaseDate, '-'))
  {
  }

  /** The year of an ISO date "YYYY-MM-DD" is its first four characters. */
  lemma {:induction false} YearOfIsoDate(d: string)
    requires |d| == 10 && d[4] == '-' && '-' !in d[..4]
    ensures Year(d) == d[..4]
  {
    BeforeFirstUnique(d, '-', d[..4]);
  }

  /** The remaining fields: title falls back to name, overview to "", rating
      to 0, runtime to null; genres start empty and the media type is passed
      through. */
  lemma OtherFieldsOfItem(item: RawItem, mediaType: string)
    ensures var r := NormalizeItem(item, mediaType);
      && r.tmdbId == item.id
      && (Truthy(r.title) <==> Truthy(item.title) || Truthy(item.name))
      && (Truthy(item.title) ==> r.title == item.title)
      && (!Truthy(item.title) ==> r.title == item.name)
      && (Truthy(item.overview) ==> r.overview == item.overview.value)
      && (!Truthy(item.overview) ==> r.overview == "")
      && (item.voteAverage.Some? && item.voteAverage.value != 0.0 ==> r.rating == item.voteAverage.value)
      && (!(item.voteAverage.Some? && item.voteAverage.value != 0.0) ==> r.rating == 0.0)
      && (TruthyInt(item.runtime) ==> r.runtime == item.runtime)
      && (!TruthyInt(item.runtime) ==> r.runtime.None?)
      && r.genres == []
      && r.mediaType == mediaType
  {
  }
}
