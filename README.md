# Movie browser backend: response cache and response shaping

This project models two parts of a small Express backend that serves movie
and TV listings taken from a metadata provider (TMDB).

- **The TTL response cache** (`cacheMiddleware.js`). One process-wide map
  goes from a request key to `{data, expires}`. A request whose key has an
  entry with `now < expires` is answered from the map, and the downstream
  handler is not called. On a miss, `res.json` is replaced. Whatever body the
  handler later emits is stored with expiry `emission time + ttl * 1000` and
  is then sent on unchanged. The module `ResponseCache` specifies this with
  pure functions over the map (`LookupAt`, `Write`, `Serve`, `Run`). The class
  `ResponseCache.Cache` holds the map as a field, and its methods are proved
  against those functions. The clock and the handler's behaviour are
  parameters.
- **The reshaping and decision rules of the routes** (`server.js`), with the
  provider requests replaced by their answers:
  - the item normalizer (`Normalize`);
  - the filter / slice / map chains, the TV season list of `/details` and the
    page and item choice of `/random` (`Pipelines`);
  - the `/genre/combos` row list and its result table (`Combos`);
  - the `/genre/viewall` provider query (`ViewAll`);
  - the `/homepage/genres` section loop (`Homepage`).
  A provider request is modelled as a function from the request to
  `Fetched(results)` or `FetchFailed`.

JavaScript value conventions are made explicit in `Js`:
- an absent property (undefined or null) is `None`;
- a string is truthy when it is present and non-empty, a number when it is
  present and non-zero;
- `||`, `split('-')[0]`, `filter` and `slice(0, n)` are functions with
  stated properties.

Three facts about the cache's code that shape the model:
- the cache stores every emitted body, error bodies included;
- a hit does not refresh the expiry;
- a hit is sent with the default status 200.

## Model

| member | source | states |
|---|---|---|
| Js.Or | server.js:28 | `a \|\| b` is truthy iff either operand is; it is `a` whenever `a` is truthy and `b` whenever `a` is not |
| Js.OrElse | server.js:23 | `a \|\| fallback` is `a` when `a` is truthy, otherwise the fallback |
| Js.BeforeFirst | server.js:24 | `s.split(c)[0]` is a prefix of `s` without `c` that ends at the end of `s` or just before a `c` |
| Js.BeforeFirstUnique | server.js:24 | those three properties determine `split(c)[0]`: any such prefix is the result |
| Js.Filter | server.js:100 | `filter` keeps exactly the elements that pass, each drawn from the input, and never lengthens the list |
| Js.FilterAppend | server.js:99-102 | filtering commutes with concatenation, so the input order is kept |
| Js.FilterAllKept | server.js:100 | a filter that every element passes returns the list unchanged |
| Js.Take | server.js:101 | `slice(0, n)` is a prefix of at most `n` elements, and is shorter only when the whole list is taken |
| ResponseCache.Configure | cacheMiddleware.js:4 | an omitted (`undefined`) ttl is 300 seconds, which is 300000 ms of freshness; a given ttl is kept |
| ResponseCache.KeyOf | cacheMiddleware.js:6 | the key is `keyFn(req)` for a function and `keyFn` itself otherwise |
| ResponseCache.Fresh | cacheMiddleware.js:9 | an entry answers a request only when it exists and `now` is strictly before its expiry (a definition; `LookupAt` and `TtlBoundary` state its consequences) |
| ResponseCache.LookupAt | cacheMiddleware.js:6-11 | a hit happens exactly when an entry exists for the key and `now < expires`; a hit yields the stored data, and a miss yields the key and ttl the replacement `res.json` will store under |
| ResponseCache.Write | cacheMiddleware.js:16 | the store sets the key to `{body, t + ttl*1000}`, adds no other key and leaves every other entry as it was |
| ResponseCache.Serve | cacheMiddleware.js:5-21 | one request end to end: a hit answers 200 from the map without calling the handler; a miss calls it, and only a `json` call stores (a definition; the lemmas below state its properties) |
| ResponseCache.Run | cacheMiddleware.js:2-18 | over a sequence of requests, completed one after another, no key ever leaves the map, stale entries included |
| ResponseCache.HitServesStoredData | cacheMiddleware.js:9-11 | on a hit the stored data is sent with status 200, the handler is not called and the map is unchanged |
| ResponseCache.MissCallsHandler | cacheMiddleware.js:13-20 | the handler is called exactly when there is no fresh entry; a handler that never calls `json` leaves the map unchanged, and a reply it sends by another route goes out uncached |
| ResponseCache.MissStoresEmittedBody | cacheMiddleware.js:15-18 | after a miss, an emitted body is stored under the key whatever its status, replacing any earlier entry, and is sent with its own status and unchanged body |
| ResponseCache.KeyIsolation | cacheMiddleware.js:16 | a request leaves every other key's entry, or its absence, as it was |
| ResponseCache.TtlBoundary | cacheMiddleware.js:9-16 | an entry written at `t` is fresh exactly for reads before `t + ttl*1000` |
| ResponseCache.NonPositiveTtlNeverHits | cacheMiddleware.js:9-16 | with `ttl <= 0` an entry is stale for every read at or after its write |
| ResponseCache.DefaultTtlWindow | cacheMiddleware.js:4-16 | with the default ttl an entry written at `t` is fresh exactly before `t + 300000` |
| ResponseCache.LastWriteWins | cacheMiddleware.js:13-18 | when two requests miss on one key before either handler emits, the map keeps the body emitted last |
| ResponseCache.RunKeepsUntouchedKey | cacheMiddleware.js:2-16 | over any sequence of requests, a key no request maps to keeps its entry or its absence |
| ResponseCache.RunEntriesWereEmitted | cacheMiddleware.js:2-18 | every entry in the map was there before or is a body some handler emitted for that key, with the expiry computed when it was emitted |
| ResponseCache.FiveSecondScenario | cacheMiddleware.js:4-20 | with a 5-second ttl: a miss at 0 ms stores the body, the same key at 3000 ms is a hit that skips the handler, and at 6000 ms the handler is called again |
| ResponseCache.Cache.constructor | cacheMiddleware.js:2 | the shared map starts empty |
| ResponseCache.Cache.Lookup | cacheMiddleware.js:6-11 | returns a hit exactly when the entry for the derived key is fresh, with its data, and otherwise the replacement `res.json`; the map is not changed |
| ResponseCache.Cache.Json | cacheMiddleware.js:15-18 | the replacement `res.json` updates the map as `Write` says and passes the body on unchanged |
| ResponseCache.Cache.Handle | cacheMiddleware.js:5-21 | one whole request leaves the map, the reply and the `next` call exactly as `Serve` specifies |
| Normalize.ImageUrl | server.js:15-21 | an image URL exists exactly when its path is truthy, and is the base URL followed by the path |
| Normalize.ReleaseDate | server.js:23 | the date is `release_date` when truthy, else `first_air_date` when truthy, else empty |
| Normalize.Year | server.js:24 | the year is "N/A" or a non-empty, dash-free prefix of the date; an empty date or one that starts with '-' gives "N/A" |
| Normalize.YearOfIsoDate | server.js:24 | the year of a "YYYY-MM-DD" date is its first four characters |
| Normalize.NormalizeItem | server.js:14-39 | `normalizeTMDBItem` field by field (a definition; `ImagesOfItem`, `DatesOfItem` and `OtherFieldsOfItem` state each field) |
| Normalize.ImagesOfItem | server.js:15-30 | poster is the w500 URL of a truthy `poster_path`, else null; backdrop is the original-size URL of a truthy `backdrop_path`, else the poster |
| Normalize.DatesOfItem | server.js:23-32 | `release_date` is the first truthy provider date or ""; `year` is "N/A" or a dash-free prefix of it |
| Normalize.OtherFieldsOfItem | server.js:26-38 | the id is passed through; title falls back to name; a truthy overview, a non-zero rating and a truthy runtime are passed through, and otherwise become "", 0 and null; genres are empty; the type is passed through |
| Pipelines.NormalizeAll | server.js:102 | `map(normalize)` normalizes each element in place, one for one |
| Pipelines.Listable | server.js:100 | the list filter: a truthy id, a truthy poster path and a truthy title or name (a definition) |
| Pipelines.Displayable | server.js:288 | the homepage filter: a truthy poster path and a truthy title or name, with no test of the id (a definition) |
| Pipelines.Pipeline | server.js:99-102 | a filter / slice / map chain returns at most `limit` items |
| Pipelines.TopPicks | server.js:99-102 | /genre/top returns at most three items |
| Pipelines.ComboItems | server.js:191-194 | a combos row holds at most ten items |
| Pipelines.SectionItems | server.js:287-290 | a homepage section holds at most ten items |
| Pipelines.PipelineItems | server.js:99-102 | the k-th output item is the normalization of the k-th input that passed the filter; there are `limit` of them unless fewer inputs pass |
| Pipelines.PipelineKeepsOrder | server.js:99-102 | the items drawn from a list are a prefix of those drawn from any extension of it |
| Pipelines.PipelineKeepsAll | server.js:99-102 | when every input passes and they fit within the limit, all of them are normalized in order |
| Pipelines.ListedItemsAreComplete | server.js:191-194 | every top-picks or combos item has an id, a poster URL and a title, with at most 3 and 10 items |
| Pipelines.SectionItemsAreDisplayable | server.js:287-290 | every homepage item has a poster URL and a title, with at most 10 items |
| Pipelines.SeasonOf | server.js:381-387 | season number, name and episode count are passed through; the poster is the w500 URL of a truthy path and otherwise the placeholder image, which a real path never yields |
| Pipelines.MapSeasons | server.js:381-388 | each kept season is mapped in place |
| Pipelines.Seasons | server.js:379-388 | a missing season list is empty; season 0 is dropped and every other season mapped (a definition; `SeasonsShape` states its properties) |
| Pipelines.SeasonsShape | server.js:379-388 | no season 0 survives, every other season does, the k-th season shown is the k-th non-special season mapped, a missing list gives no seasons, and every season has a poster |
| Pipelines.SeasonsKeepOrder | server.js:379-380 | the seasons of a concatenation are the seasons of each part, in order |
| Pipelines.ClampPages | server.js:222-223 | the page count is capped at 500 and is otherwise unchanged |
| Pipelines.RandomPage | server.js:222-226 | there is no page exactly when the count is below 1; otherwise the page is `index + 1`, between 1 and the capped count |
| Pipelines.RandomItem | server.js:230-234 | there is no item exactly when no result has a poster; otherwise the item is the normalization of a result that has one |
| Combos.GenreName | server.js:131 | a genre name is found exactly when the table has that id, and it is that entry's name |
| Combos.GenreTable | server.js:117-129 | `type === 'tv'` selects the 16-entry TV table and any other type the 19-entry movie table, each listed in `Object.entries` order (a definition over `MovieGenres` and `TvGenres`) |
| Combos.GenreNameAt | server.js:131 | looking up an id finds the first entry that has it |
| Combos.CuratedTv | server.js:140-146 | the five curated TV genres and their partner ids, in the order written (a definition) |
| Combos.ResolveIds | server.js:151-153 | the curated partners keep exactly the ids that are non-empty and have a name in the table: every result is such a table entry, and every such id is resolved to its name |
| Combos.ResolveIdsAppend | server.js:151-153 | resolving a list resolves each part in turn, so the curated order is kept |
| Combos.RelatedGenres | server.js:150-158 | curated TV partners are exactly the resolvable curated ids; otherwise the result is the first `min(3, n)` of the `n` table entries whose id differs from the requested one, in table order |
| Combos.CuratedActionPartners | server.js:140-153 | Action & Adventure on TV gets Comedy then Drama |
| Combos.FilterOtherGenres | server.js:155-157 | when table ids are distinct, removing the requested id drops at most one genre |
| Combos.ThreeRelatedGenres | server.js:155-157 | outside the curated case both genre tables give exactly three related genres, whatever the requested id |
| Combos.BaseFilters | server.js:133-137 | the three fixed rows Fan Favorites, Top Rated and Latest Releases, sorted by popularity, rating and release date, for the genre alone (a definition) |
| Combos.PairFilter | server.js:160-166 | an added row is captioned `genreName + " + " + relatedName` (an unknown name renders as "undefined"), sorts by popularity and asks for both genres |
| Combos.FilterList | server.js:133-166 | the row list has the three fixed rows plus one row per related genre |
| Combos.RouteFilters | server.js:117-166 | the route's rows for an id and a media type: the genre's name in the selected table, then `FilterList` over its related genres (a definition) |
| Combos.BuildFilters | server.js:133-166 | the `push` loop yields Fan Favorites, Top Rated and Latest Releases first, then one pair row per related genre, in order |
| Combos.PairFiltersNamePair | server.js:150-166 | each pair row's genres are `genreId,relatedId`, its caption ends in the related name, and outside the curated case it never pairs a genre with itself |
| Combos.ComboParams | server.js:172-187 | a row's query is exactly its genres and sort, no adult or video content, certification up to R, runtime from 60, original language en, language en-US and page 1, plus `vote_count.gte = 300` exactly when it sorts by rating; no other key |
| Combos.OnlyTopRatedHasVoteFloor | server.js:133-187 | of all the rows, only the second (Top Rated) asks for a vote-count floor |
| Combos.ComboTable | server.js:196-198 | `comboResults` after a sequence of rows: only rows with items set their caption, so every entry is non-empty |
| Combos.ComboTableCaptions | server.js:196-198 | a caption is in the result exactly when some row with that caption had items, and its value is the non-empty item list of such a row |
| Combos.ComboTableEntries | server.js:196-198 | when captions are distinct, each row with items appears under its caption with exactly those items |
| Combos.ComboResults | server.js:168-205 | the loop requests the rows in order; it succeeds exactly when every request does and then returns the table of the fetched rows; the first failure ends it with a 500 |
| Combos.GenreCombos | server.js:111-205 | a missing id is a 400; otherwise the reply is the table of the route's rows, or a 500 when any fetch fails, and every caption maps to between 1 and 10 items |
| ViewAll.SortOf | server.js:740 | `sort_by` defaults to `vote_average.desc` only when it is absent |
| ViewAll.TypeOf | server.js:739 | `type` defaults to "movie" only when it is absent; an empty `type` stays empty, unlike the `\|\| 'movie'` of the other routes |
| ViewAll.SetIfGiven | server.js:771-774 | an optional filter is set exactly when the client's value is truthy, and no other key changes |
| ViewAll.ViewAllBase | server.js:753-761 | the fixed keys carry the id, the sort, no adult or video content, en-US, and the client's page or the number 1 |
| ViewAll.SetVoteCount | server.js:764-768 | `vote_count.gte` is the client's value when given, 300 when absent and sorting by rating, and otherwise not added |
| ViewAll.SetOptionalFilters | server.js:771-774 | each of the four optional filters is present exactly when given, with the client's text, and nothing else changes |
| ViewAll.ViewAllParams | server.js:737-774 | the reply is a 400 exactly when the id is missing or empty, and a query otherwise; the query holds the fixed keys, the vote-count rule and exactly the given optional filters, and no other key |
| ViewAll.ViewAllItems | server.js:781-783 | the list has one item per listable result, with no length cap |
| ViewAll.ViewAllItemsAreComplete | server.js:781-783 | every listable result appears, and every item has an id, a poster URL and a title |
| ViewAll.ViewAllExtendsComboRow | server.js:781-783 | when at most ten results are listable, the view-all list equals the combos row |
| Homepage.SectionTable | server.js:246-269 | only "movie" and "tv" have a section table (`MovieSections`, `TvSections`, six sections each in the order written); any other type has none |
| Homepage.SectionTablesAreDistinct | server.js:246-263 | no genre id appears twice in either section table |
| Homepage.SectionParams | server.js:276-284 | a section request asks exactly for its genre, by popularity, with the vote floor 100 under the key `vote_count_gte` as written, no adult content, en-US and page 1; no other key |
| Homepage.SectionQueryDeterminesGenre | server.js:276-284 | two section queries are equal exactly when their genre ids are, so a request keyed by its genre id is keyed by its query |
| Homepage.SectionsOfKeys | server.js:274-291 | `SectionsOf`, the `sections` object after fetching the given sections in order, is keyed by exactly the sections' genre ids |
| Homepage.SectionsOfAt | server.js:286-291 | with distinct genre ids, each section's entry holds the items reshaped from its own response |
| Homepage.FillSections | server.js:273-299 | the loop requests the sections in order, one discover request per genre; it succeeds exactly when every request does, and then returns `SectionsOf` of the sections; on failure the last request made is the one that failed, every earlier one succeeded, and the reply is a 500 |
| Homepage.HomepageGenres | server.js:242-300 | the type falls back to "movie"; a type without a table is a 400; otherwise each genre id maps to its section's items, which have posters and titles, at most ten per section |

## Left out

- Network I/O. Every provider request is an input: a function from the request to its results or a failure. Concurrency is not modelled, including the `Promise.all` enrichment of `/genre/viewall`, so `ViewAll.ViewAllItems` is the list before runtime and genres are filled in.
- ResponseCache.Cache.Handle: runs the lookup and the handler's single `json` call without other requests in between. Only the race of two requests on one key is modelled, on the specification side (`LastWriteWins`: both miss before either handler emits, and the body emitted last is kept). `Run` completes each request before the next lookup, so its lemmas cover sequential traffic only; general interleavings of lookups and emissions are not modelled. A handler that calls `json` twice is not modelled.
- The clock is a parameter. The ttl is a whole number of seconds, so fractional ttls are not modelled. Keys are strings, so JavaScript's coercion of object keys to strings is not modelled. The cache is a `map`, not a plain object: storing under the key `__proto__` (cacheMiddleware.js:16) would replace the object's prototype rather than add an entry, after which other keys such as `data` resolve through the stored body; this is not modelled. A stored body is a value: in JavaScript it is the handler's own object held by reference, so a later change to that object would show on every hit, which the model does not capture.
- ResponseCache.Configure: an explicit `null` ttl is not modelled. The default applies only to `undefined`, so in JavaScript `null` gives `null * 1000 = 0` and an entry that is stale from the moment it is written; the model's `None` is the omitted ttl only.
- Homepage.SectionTable, Homepage.HomepageGenres, Combos.GenreCombos: inherited prototype properties of the lookup objects are not modelled. In JavaScript `?type=constructor` finds `Object`'s constructor as the homepage section table, so the loop runs over no sections and answers 200 with `{}`; the model answers 400. In the combos route `?type=tv&id=constructor` finds a function as the curated list, and `.map` on it throws outside the `try` (server.js:151-152); under Express 4, which does not catch a rejected promise from an async handler, no reply is sent (and on Node 15 or later the unhandled rejection ends the process), while Express 5 would answer 500; the model uses the non-curated branch. For any type, `id=constructor` also makes the genre name a function, whose source text would head the pair captions; the model renders it as "undefined".
- Pipelines.RandomPage: the random draws `Math.floor(Math.random() * n)` are abstract indices in `[0, n)`, and the reuse of the first page's response when the page is 1 is not modelled. A non-numeric `total_pages` is not modelled either.
- Floating-point values: `vote_average` is a real with no NaN, and the popularity sort and random shuffle of other routes are not modelled.
- Combos.GenreCombos: the provider is keyed by the row rather than by the query built for it. `ComboResults` returns those queries alongside the reply, and `ComboParams` states them. The JSON key order of the result table is not modelled.
- Homepage.FillSections: the provider is keyed by the media type and genre id of a section rather than by the query map; `SectionQueryDeterminesGenre` shows the two determine each other.
- Homepage.HomepageGenres: section keys are numbers, not the strings JSON objects use, and their order in the JSON body is not modelled.
- The API key parameter, logging and the error messages written to the console.
- The other routes (`/search`, the body of `/details` apart from its season list, `/episodes`, `/preload`, `/explore/*`, `/embed`) and the duplicate `/details` route, which the first one shadows.
- Express routing, middleware mounting, CORS and environment configuration. The cache is not mounted on any route, so it is modelled standalone.
