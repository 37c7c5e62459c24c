# tvql catalog core, modelled in Dafny

tvql serves a GraphQL view of a directory tree of iTunes-tagged `.m4v` files. This project models
the core of that service:

- **The catalog builder** (`graph/model/library.go`, module `Catalog`). A `Library` holds four
  maps: videos, series and seasons by ID, and file paths by rendition or video ID. It ingests one
  file at a time. The class `Catalog.Library` keeps those maps as fields. `IngestFile` is Survey's
  per-file body, one get-or-create or update step after another. It is proved equal to the
  function `Catalog.Ingest`. That function factors into `PlanOf`, the plain values a file
  determines, and `Apply`, the map updates. The lemmas of `CatalogLemmas` state what ingesting
  does.
- **The iTunes metadata reader** (`metadata/mp4/mp4.go`, module `Mp4`). The class `Mp4.File` has
  one field per atom. A memoised `Survey` walks the boxes under `moov/udta/meta/ilst` and
  classifies each by its parent's tag, through `OnBox`. The typed accessors then report the value
  or an "atom missing" error. What the go-mp4 library reports for a file is an input value, a
  `Container`. `Extract` is the function that states what the survey leaves behind.
- **Sort keys and orders** (`graph/model/modelutil.go`, module `ModelUtil`). These are article
  stripping, the three `Less` orders and `Swap`. `Sorting` states what `sort.Sort` promises: a
  sorted permutation.
- **The query layer**:
  - `graph/schema.resolvers.go`, module `Resolvers`: lookups, the title and series filters, the
    "after" cursor, the "first" limit and the first matching rendition.
  - `graph/resolver.go`, module `Episodes`: the conjunctive episode filters.
  - `graph/model/artwork.go`, module `Artwork`: the artwork lookup by ID and the target size of a
    resized cover.

Go's pointers between entities are IDs here:
- an episode names its season and its video;
- a season names its series;
- an entity is found by looking its ID up in the library's maps.

Other modelling choices:
- **Panics:** a Go runtime panic is an explicit outcome carrying Go's message, not a
  precondition. Examples are slicing a short release date, indexing an empty ilst lookup, a nil
  `tves` atom, a negative "first" and a zero image side.
- **Map order:** Go's map iteration order is unspecified, so a result gathered from a map is
  specified by its multiset.
- **`hashToStr`:** SHA-256 followed by base64. It is a parameter, `hash: string -> string`.
  Where distinct keys must give distinct IDs, the lemmas assume it is injective (`Injective`).

## Model

| member | source | states |
|---|---|---|
| Catalog.Library.constructor | graph/model/library.go:25-32 | A new library has four empty maps, and an empty library is valid. |
| Catalog.Library.IngestFile | graph/model/library.go:57-166 | Ingesting one file leaves exactly the state, and the panic, that `Ingest` gives for the file's metadata, path and size. |
| Catalog.Library.FileVideoFor | graph/model/library.go:57-95 | A title panic or a release date shorter than four bytes returns the panic and changes nothing. Otherwise the video is found or created under the ID of (title, year) and then described. |
| Catalog.Library.GetOrCreateVideo | graph/model/library.go:70-81 | Returns the stored video under the ID, or stores a new one with that ID, title and year. No other map changes. |
| Catalog.Library.AddEpisodeFor | graph/model/library.go:98-146 | TVEpisode's panic is returned with the library unchanged. Otherwise the series branch runs: series, season and episode link, then the series' sort name. |
| Catalog.Library.Link | graph/model/library.go:110-139 | The locked region finds or creates the series and the season, and links the video's episode only if it has none. |
| Catalog.Library.GetOrCreateSeries | graph/model/library.go:111-118 | Returns an existing series unchanged (its name is kept), or stores a new one under the hash of the name. |
| Catalog.Library.GetOrCreateSeason | graph/model/library.go:120-128 | Returns an existing season unchanged (its number and series are kept), or stores a new one. |
| Catalog.Library.AppendRendition | graph/model/library.go:148-166 | Stores the path under the rendition ID and the video ID, and appends exactly one rendition to the video. |
| Catalog.Library.Survey | graph/model/library.go:34-173 | Walking the entries leaves the state of `SurveyOf`. A walk error ends the walk, non-`.m4v` paths are skipped, an open error ends the walk, and a panic stops it. |
| Catalog.ReadTitleAndYear | graph/model/library.go:57-68 | A Title panic or a date under four bytes gives a panic. Otherwise the title falls back to the base name, the date to "1900", and the year is Atoi of the first four bytes, or 0. |
| Catalog.DescribeVideo | graph/model/library.go:83-95 | The sort title is always set. Genre and description are replaced only by non-empty values. |
| Catalog.ReadSortTitle | graph/model/library.go:83-87 | The file's non-empty sort title, or else the article-stripped title. |
| Catalog.ReadGenre | graph/model/library.go:89-91 | A non-empty genre replaces the previous value; an error or an empty genre keeps it. |
| Catalog.ReadDescription | graph/model/library.go:93-95 | A non-empty description replaces the previous value; an error or an empty description keeps it. |
| Catalog.ReadSeasonAndEpisode | graph/model/library.go:99-105 | The season is 1 only when TVSeason errors. The episode is 0 when TVEpisode errors. TVEpisode's nil dereference is a panic. |
| Catalog.ReadSeriesSortName | graph/model/library.go:141-145 | The non-empty sort show name, or else the article-stripped series name. |
| Catalog.QualityFromPath | graph/model/library.go:190-236 | The directory loop from innermost to outermost computes `QualityOf` of the path's directories. |
| Catalog.QualityOf | graph/model/library.go:190-236 | The resolution is always one of "", "480p", "720p" and "1080p". |
| Catalog.Apply | graph/model/library.go:70-166 | Nothing stored is removed; the plan runs to the end exactly when it stores a video and has no episode panic, and then the path is stored under the video's ID. |
| Catalog.Ingest | graph/model/library.go:57-166 | Nothing stored is removed; a file that goes all the way through has a title and a year, and its rendered path is stored. |
| Catalog.SurveyOf | graph/model/library.go:34-173 | Nothing stored is removed; a survey never reports both an error and a panic, and the error it reports is the walk error or open error of one of the entries. |
| Catalog.QualityOutermostWins | graph/model/library.go:193-233 | The codec is H265 iff some directory names x265. Resolution and budget come from the outermost directory that names one; the defaults are H264, "" and none. |
| Catalog.Outermost | graph/model/library.go:197-233 | The token found is the one of the first (outermost) directory that has one, and None means no directory has one. |
| Catalog.VideoIdIdentifiesTitleAndYear | graph/model/library.go:180-183 | With an injective hash, two video IDs are equal iff their titles and years are. |
| Catalog.SeasonIdIdentifiesSeriesAndSeason | graph/model/library.go:185-188 | With an injective hash, two season IDs are equal iff their series names and numbers are. |
| Catalog.TitleYearKeyInjective | graph/model/library.go:181 | The formatted key "%s (%d)" determines the title and the year. |
| Catalog.KeyShape | graph/model/library.go:181 | The key is the title, " (", the decimal year and ")". No '(' follows the one it adds. |
| Catalog.FileVideo | graph/model/library.go:70-95 | After filing, the video's ID is in the map. |
| Catalog.LinkEpisode | graph/model/library.go:110-139 | After the locked region, the video and the series are stored. |
| Catalog.AddEpisode | graph/model/library.go:110-145 | The series branch keeps the video stored. |
| CatalogLemmas.ApplyPreservesValid | graph/model/library.go:70-166 | Whatever a file says, every entity stays stored under its own ID and every link leads to a stored entity. |
| CatalogLemmas.IngestPreservesValid | graph/model/library.go:57-166 | Ingesting any file keeps the library valid. |
| CatalogLemmas.SurveyPreservesValid | graph/model/library.go:34-173 | A whole survey keeps the library valid. |
| CatalogLemmas.FileVideoPreservesValid | graph/model/library.go:70-95 | Filing a video keeps the library valid. |
| CatalogLemmas.AddEpisodePreservesValid | graph/model/library.go:98-146 | The series branch keeps the library valid. |
| CatalogLemmas.AddRenditionPreservesValid | graph/model/library.go:148-166 | Recording a rendition keeps the library valid. |
| CatalogLemmas.ApplyFilesVideo | graph/model/library.go:70-81 | The video key set gains at most the file's ID. An existing video keeps its ID, title and year, a new one takes the file's, and no other video changes. |
| CatalogLemmas.ApplyDescribesVideo | graph/model/library.go:83-95 | The sort title is always rewritten. Genre and description fall back to the stored values. |
| CatalogLemmas.ApplyAppendsRendition | graph/model/library.go:148-166 | One rendition is appended after the earlier ones, and the path map changes only at the two IDs. |
| CatalogLemmas.ApplySeriesPanic | graph/model/library.go:98-105 | A panic in the series branch leaves the video filed and described, with no series, season or path change. |
| CatalogLemmas.ApplyWithoutSeries | graph/model/library.go:98 | Without a series, series and seasons are untouched and the episode link is as before. |
| CatalogLemmas.ApplyLinksEpisode | graph/model/library.go:110-145 | The series and season maps change at exactly one ID each, by get-or-create. The sort name is refreshed, and an existing episode link is never replaced. |
| CatalogLemmas.AddEpisodeLinks | graph/model/library.go:110-145 | The same facts for the series branch of an already filed video. |
| CatalogLemmas.IngestAborts | graph/model/library.go:57-68 | A file whose title or date slice panics changes nothing and reports that panic. |
| CatalogLemmas.IngestFilesByTitleAndYear | graph/model/library.go:70-81 | A file lands in the video of its (title, year). Existing ID, title and year are kept, and no other video changes. |
| CatalogLemmas.IngestFallbacks | graph/model/library.go:57-68 | A missing or empty title gives the base name without its extension, and a missing or empty date gives the year 1900. |
| CatalogLemmas.IngestDescribesVideo | graph/model/library.go:83-95 | The sort title is overwritten on every file. Genre and description are overwritten only by non-empty values. |
| CatalogLemmas.IngestUnreadableFile | graph/model/library.go:57-98 | A file whose ilst lookup fails is filed under its base name and 1900, with no series and no panic. |
| CatalogLemmas.IngestAppendsOneRendition | graph/model/library.go:148-166 | A completed ingest appends exactly one rendition and sets the path under the rendition ID and the video ID. |
| CatalogLemmas.IngestEpisodePanic | graph/model/library.go:98-105 | A series file whose TVEpisode panics is filed and described, and gets no rendition and no series. |
| CatalogLemmas.IngestMovie | graph/model/library.go:98 | Without a series name, series and seasons are untouched and the episode link is as before. |
| CatalogLemmas.IngestSeries | graph/model/library.go:98-145 | The series is found or created under the hash of its name, and the season under the ID of name and number. The sort name is refreshed, and the episode is linked at most once. |
| CatalogLemmas.SeasonAndEpisodeNumbers | graph/model/library.go:99-105 | A missing tvsn gives season 1 and episode 0. A decoded 0, or a short payload, stays season 0. |
| CatalogLemmas.SeriesSortNameFromName | graph/model/library.go:141-145 | Because sosn is never recorded, the sort name of a series always comes from its name. |
| CatalogLemmas.SameTitleAndYearMerge | graph/model/library.go:70-166 | Two files with the same title and year share one video. The second adds no video and appends its rendition after the first's. |
| CatalogLemmas.DistinctTitleOrYearDistinctVideos | graph/model/library.go:70 | With an injective hash, two files share a video iff they share title and year. |
| Mp4.File.constructor | metadata/mp4/mp4.go:33-35 | A new file has recorded nothing and is not yet surveyed. |
| Mp4.File.OnBox | metadata/mp4/mp4.go:53-118 | One callback call. covr records the location, a recognised tag sets its own field, and other tags change nothing. A failed payload read aborts. |
| Mp4.File.Survey | metadata/mp4/mp4.go:37-121 | The survey is memoised: once ilst is set it returns nil and changes nothing. A lookup error is returned, and an empty lookup is an index panic; neither sets anything. Otherwise it records what the walk records, and walk errors are dropped. |
| Mp4.File.Title | metadata/mp4/mp4.go:150-160 | The survey error, "atom missing", or the ©nam payload as a string. |
| Mp4.File.SortTitle | metadata/mp4/mp4.go:162-172 | The same, for sonm. |
| Mp4.File.ReleaseDate | metadata/mp4/mp4.go:174-184 | The same, for ©day. |
| Mp4.File.Genre | metadata/mp4/mp4.go:186-196 | The same, for ©gen. |
| Mp4.File.Description | metadata/mp4/mp4.go:198-208 | The same, for desc. |
| Mp4.File.MediaKind | metadata/mp4/mp4.go:223-240 | The stik code as a media kind, or the survey, missing-atom, empty-payload or unknown-code error. |
| Mp4.File.TVShowName | metadata/mp4/mp4.go:242-252 | The survey error, "atom missing", or the tvsh payload. |
| Mp4.File.TVSortShowName | metadata/mp4/mp4.go:254-264 | The survey error, "atom missing", or the sosn payload. |
| Mp4.File.TVSeason | metadata/mp4/mp4.go:266-279 | The tvsn payload decoded as a big-endian int32. |
| Mp4.File.TVEpisode | metadata/mp4/mp4.go:281-294 | The tves payload decoded, with absence tested on tvsn. |
| Mp4.Int32BE | metadata/mp4/mp4.go:275-278 | The decoded value lies in the int32 range. |
| Mp4.Latin | metadata/mp4/mp4.go:159 | Converting a payload to a string keeps every byte. |
| Mp4.RecordSetsOnlyItsSlot | metadata/mp4/mp4.go:70-101 | A recognised data tag sets exactly its own field, and never covr or sosn. |
| Mp4.IgnoredTagsChangeNothing | metadata/mp4/mp4.go:84-111 | The named-but-ignored tags and every unknown tag change nothing. |
| Mp4.LaterBoxOverwrites | metadata/mp4/mp4.go:70-101 | Of two data boxes with the same parent, the later one stays recorded. |
| Mp4.WalkStopsAtFailedRead | metadata/mp4/mp4.go:66-69 | A failed read ends the walk, keeping what was recorded before it and looking at nothing after it. |
| Mp4.WalkNeverStoresSosn | metadata/mp4/mp4.go:71-112 | No dispatch case stores sosn, tvnn or tven. |
| Mp4.SurveyErrorReachesEveryAccessor | metadata/mp4/mp4.go:150-294 | A failed survey is what every accessor reports. |
| Mp4.TextAccessorsAreVerbatim | metadata/mp4/mp4.go:150-264 | Each of Title, SortTitle, ReleaseDate, Genre, Description, TVShowName and TVSortShowName gives its atom's payload bytes unchanged when the atom was recorded, and otherwise the "<tag> atom missing" error naming that atom. |
| Mp4.Walk | metadata/mp4/mp4.go:53-118 | Whatever the walk changes comes from a visited box: a slot holds the payload of a box of that type under ilst meta, and covr the location of a covr box. |
| Mp4.Extract | metadata/mp4/mp4.go:37-121 | The survey records atoms exactly when the ilst lookup succeeds with at least one box; a lookup error is passed on; every recorded atom is the payload of some box visited under the first ilst. |
| Mp4.TVSortShowNameAlwaysMissing | metadata/mp4/mp4.go:254-264 | After a successful survey, the sort show name is always reported missing. |
| Mp4.MediaKindCodes | metadata/mp4/mp4.go:228-239 | stik 9 is "Movie" and 10 is "TV Show", each iff the first byte says so. Any other code, or a missing atom, is an error. |
| Mp4.TVEpisodeTestsTvsn | metadata/mp4/mp4.go:286-291 | Absence is decided by tvsn. A present tvsn with a missing tves panics. |
| Mp4.ShortSeasonIsZero | metadata/mp4/mp4.go:275-278 | A season payload shorter than four bytes reads as 0 with no error. |
| Mp4.Int32RoundTrip | metadata/mp4/mp4.go:275-278 | Decoding the big-endian encoding of any int32 gives it back. |
| Mp4.Int32DecodeEncode | metadata/mp4/mp4.go:275-278 | Only the first four bytes count, and they are the encoding of what they decode to. |
| ModelUtil.SortableTitle | graph/model/modelutil.go:7-12 | The sort title is a suffix of the title, at most 9 characters shorter. |
| ModelUtil.SortableTitleUnchanged | graph/model/modelutil.go:7-12 | A title that starts with none of the articles is its own sort title. |
| ModelUtil.SortableTitleOrder | graph/model/modelutil.go:7-12 | For every title t: after "The " the rest may still lose "A " and then "An "; after "A " only "An "; after "An " nothing; a second "The " is kept. |
| ModelUtil.VideoLessStrictWeakOrder | graph/model/modelutil.go:17 | ByVideoTitle.Less is irreflexive and transitive, and two videos are unordered iff their sort titles are equal. |
| ModelUtil.SeriesLessStrictWeakOrder | graph/model/modelutil.go:23 | BySeriesName.Less is irreflexive and transitive, and two series are unordered iff their sort names are equal. |
| ModelUtil.EpisodeLessStrictWeakOrder | graph/model/modelutil.go:29-39 | ByEpisode.Less is lexicographic on (series sort name, season, episode) and a strict total order on keys. |
| ModelUtil.VideoOrder | graph/model/modelutil.go:17 | ByVideoTitle.Less is a strict order, as sort.Sort needs. |
| ModelUtil.SeriesOrder | graph/model/modelutil.go:23 | BySeriesName.Less is a strict order. |
| ModelUtil.Swap | graph/model/modelutil.go:18 | Swap exchanges exactly positions i and j, and the array stays a permutation of itself. |
| Text.LessIrreflexive | graph/model/modelutil.go:17 | No string is below itself in Go's byte order. |
| Text.LessTransitive | graph/model/modelutil.go:23 | Go's string order is transitive. |
| Text.LessTotal | graph/model/modelutil.go:31 | Two distinct strings are ordered one way or the other. |
| Text.LessAsymmetric | graph/model/modelutil.go:31 | Go's string order is asymmetric. |
| Text.TrimPrefix | graph/model/modelutil.go:8-10 | Drops one leading copy of the prefix when present; otherwise the string is unchanged. |
| Text.TrimSuffix | graph/model/library.go:60 | Drops one trailing copy of the suffix when present; otherwise the string is unchanged. |
| Text.Ext | graph/model/library.go:41 | The extension is a suffix of the name. |
| Text.ExtM4v | graph/model/library.go:41-44 | A name has extension ".m4v" iff it ends in ".m4v". |
| Text.AtoiItoa | graph/model/library.go:68 | Atoi reads back what %d prints. |
| Text.ItoaInjective | graph/model/library.go:181 | Different numbers print differently. |
| Text.ItoaChars | graph/model/library.go:181 | %d prints a non-empty run of digits and minus signs. |
| Sorting.Sort | graph/schema.resolvers.go:81 | Sorting gives a permutation of the input in which no element is less than one before it. |
| Sorting.Insert | graph/schema.resolvers.go:109 | Insertion into a sorted list keeps it sorted and adds exactly the element. |
| Episodes.Collect | graph/resolver.go:33-49 | The loop over the videos returns exactly the episodes in `Matching`, each once. The library is not modified. |
| Episodes.QueryMatches | graph/resolver.go:52-83 | queryResolver.episodes returns the episodes passing the season-ID, series-ID and series-name filters. |
| Episodes.SeriesMatches | graph/resolver.go:29-50 | seriesResolver.episodes returns the episodes of the series, or all of them. |
| Episodes.SeasonMatches | graph/resolver.go:85-106 | seasonResolver.episodes returns the episodes of the season, or all of them. |
| Episodes.MatchingMembers | graph/resolver.go:34-46 | An episode matches iff its video is stored, it is that video's episode, and it passes the filter. |
| Episodes.OneEpisodePerVideo | graph/resolver.go:57-79 | Each contributing video gives exactly one episode, so there are as many episodes as videos. |
| Episodes.FiltersConjunctive | graph/resolver.go:63-77 | A filter matches the intersection of what its season-ID, series-ID and series-name parts match alone. |
| Episodes.ExtraFilterShrinks | graph/resolver.go:52-83 | An extra filter only shrinks the result, and no filter matches everything. |
| Resolvers.QueryVideo | graph/schema.resolvers.go:52-62 | The stored video when the ID is a key, otherwise "video not found". |
| Resolvers.QueryVideos | graph/schema.resolvers.go:64-98 | The matching videos, sorted by sort title as a permutation, then the cursor and the limit. The result panics iff "first" is negative. Otherwise it is sorted and holds only matching videos, and without pagination it holds all of them. |
| Resolvers.TitledVideos | graph/schema.resolvers.go:72-79 | With a title, exactly the stored videos with that title. Without one, all videos. |
| Resolvers.QuerySeries | graph/schema.resolvers.go:100-125 | All series, sorted by sort name as a permutation, then the cursor and the limit. The result panics iff "first" is negative. Otherwise it is sorted and holds only stored series, and without pagination it holds all of them. |
| Resolvers.PageIsSlice | graph/schema.resolvers.go:83-95 | Pagination panics exactly on a negative "first". Otherwise it keeps a contiguous run of the list, and without arguments the whole list. |
| Resolvers.SliceOfSorted | graph/schema.resolvers.go:81-95 | A contiguous run of a sorted list is sorted and holds nothing the list does not. |
| Resolvers.QuerySeasons | graph/schema.resolvers.go:127-145 | The seasons of the filter's series, or all of them. A filter without an ID panics iff there is a season. |
| Resolvers.SeriesSeasons | graph/schema.resolvers.go:218-236 | The seasons of the series, or all of them. |
| Resolvers.SeasonsOfSeries | graph/schema.resolvers.go:131-141 | A series filter keeps exactly the seasons whose series has its ID. |
| Resolvers.Gather | graph/schema.resolvers.go:72-79 | The append loop over a map returns each stored value that passes the filter, exactly once. |
| Resolvers.GatheredMembers | graph/schema.resolvers.go:73-78 | A value is gathered iff it is stored and passes the filter. |
| Resolvers.Paginated | graph/schema.resolvers.go:83-95 | The cursor loop and the limit compute `Page`. |
| Resolvers.Page | graph/schema.resolvers.go:83-95 | A page is never longer than the list it comes from, and the only failure is the slice-bounds panic. |
| Resolvers.CursorIndex | graph/schema.resolvers.go:84-89 | The index found is the first one with the cursor's ID, or the length. |
| Resolvers.AfterCursor | graph/schema.resolvers.go:83-91 | A cursor equal to the ID at index i yields the suffix from i+1. |
| Resolvers.AfterUnknownCursor | graph/schema.resolvers.go:111-118 | A cursor that matches nothing leaves the list unchanged. |
| Resolvers.FirstTruncates | graph/schema.resolvers.go:93-95 | "first" n keeps a prefix of length min(len, n), and a negative n panics. |
| Resolvers.EpisodeOrder | graph/model/modelutil.go:29-39 | ByEpisode over the library's episodes is a strict order. |
| Resolvers.SortedEpisodes | graph/schema.resolvers.go:147-156 | The filtered episodes as a permutation, in ByEpisode order. |
| Resolvers.QueryEpisodes | graph/schema.resolvers.go:147-156 | queryResolver.Episodes gives the filtered episodes as a permutation, in ByEpisode order. |
| Resolvers.QueryEpisodeCount | graph/schema.resolvers.go:158-165 | The count is the number of episodes Episodes returns for the same filters. |
| Resolvers.SeasonEpisodes | graph/schema.resolvers.go:198-207 | seasonResolver.Episodes gives the season's episodes in ByEpisode order. |
| Resolvers.SeasonEpisodeCount | graph/schema.resolvers.go:209-216 | That count for the season. |
| Resolvers.SeriesEpisodes | graph/schema.resolvers.go:238-247 | seriesResolver.Episodes gives the series' episodes in ByEpisode order. |
| Resolvers.SeriesEpisodeCount | graph/schema.resolvers.go:249-256 | That count for the series. |
| Resolvers.CountEpisodes | graph/schema.resolvers.go:158-165 | The count is the size of the matching set. |
| Resolvers.CountIsLength | graph/schema.resolvers.go:164 | A list holding the elements of a set has the set's size, so the count equals the length of Episodes. |
| Resolvers.Rendition | graph/schema.resolvers.go:179-196 | Returns the first rendition, in list order, that passes the filter, and None iff none does. |
| Resolvers.NoFilterPassesAll | graph/schema.resolvers.go:184 | A nil filter, or a rendition without a quality, always passes. |
| Artwork.GetArtwork | graph/model/artwork.go:20-47 | An ID that names no video gives "video not found"; any other outcome is the cover art of the path stored under that ID. |
| Artwork.GetArtworkUnknownId | graph/model/artwork.go:24-27 | An ID that names no video, a rendition's ID included, gives "video not found" without reading any file. |
| Artwork.ArtworkFromLastIngestedFile | graph/model/artwork.go:29-41 | After a file is ingested, its video's artwork is read from that file's path. |
| Artwork.GoDiv | graph/model/artwork.go:70 | Go's integer division truncates toward zero. |
| Artwork.ResizeArtwork | graph/model/artwork.go:49-96 | A decode failure is the decoder's error; a panic needs an image with a zero side; a target size needs a decoded image, and each requested side is clamped to the image's. |
| Artwork.NoGeometryNoDecode | graph/model/artwork.go:50-55 | A nil geometry, or one with neither side, returns the artwork untouched, whatever the image is. |
| Artwork.TargetWithinImage | graph/model/artwork.go:65-86 | For non-negative requests and a non-empty image, the target never exceeds the image. |
| Artwork.OneSideKeepsAspect | graph/model/artwork.go:65-76 | With one side given, that side is clamped and the other is scaled by the image's ratio, rounded down. |
| Artwork.BothSidesClampedIndependently | graph/model/artwork.go:77-86 | With both sides given, each is clamped on its own and the aspect ratio is not kept. |
| Artwork.EmptyImagePanics | graph/model/artwork.go:70-76 | One side requested against an image with a zero other side panics on division by zero. |
| Artwork.NegativeRequestRoundsTowardZero | graph/model/artwork.go:65-70 | For every negative height and non-empty image, the height is kept as given and the width is height * x / y rounded toward zero: non-positive, and within one y-step above the exact quotient. |

## Left out

- **File system, walk and I/O.** `filepath.Walk`, `os.Open`, `bufseekio` and `info.Size()` are not part of this model.
  - Survey takes the walk's entries as a list of `WalkEntry` values: the path, the walk's error, the size, and the container or the open error.
  - Paths are clean, split paths (`FilePath`), so `filepath.Dir`/`Base` are not modelled on raw strings.
- **go-mp4 internals.** `ExtractBox`, `ReadBoxStructureFromInternal`, `ReadPayload`, `UnmarshalAny` and `SeekToPayload` are not part of this model.
  - A `Container` value states the ilst lookup's outcome and the boxes the walk visits.
  - `readBox`, `readData` and `CoverArt` read payloads through the same library. They are left out, and artwork bytes are a `coverArt` parameter of `GetArtwork`.
- **hashToStr.** SHA-256 with base64 is an uninterpreted parameter. Injectivity is assumed only in the lemmas that name `Injective`.
- **Locks.** `Mutex.Lock`/`Unlock` and concurrent surveys and queries are left out. Each locked region is one sequential step.
- **Pointers.** Pointer aliasing between entities is modelled by IDs. A Go pointer update through `video`, `series` or `episode` is a write back into the map under that ID.
- **Survey.** A Go panic inside Survey ends the program. The model reports it as `panic` and stops there.
- **Image work.** Image decoding, the Lanczos resize, JPEG and base64 encoding are left out. `ResizeArtwork` takes the decoder's outcome (the image size or its error) and returns the target size, not bytes.
- **Resolver plumbing.** `videoResolver.Artwork`, `artworkResolver.URL`/`Base64`, `renditionResolver.URL` and `server.go` are left out. They are URL building and HTTP plumbing around the modelled functions.
- **Unimplemented filter.** The `contributor` filter of `Videos` always panics as "not implemented", and it is left out.
- **sort.Sort.** Its algorithm is left out. A sorted result is specified as a sorted permutation (`Sorting.Sort` is an insertion sort that keeps that promise).
  - `BySeason` is referenced by `Seasons` but is not part of this model. Season results are therefore specified by their multiset, without an order.
  - `Resolvers.QueryVideos` and `Resolvers.QuerySeries` give the sorted list as a ghost result. sort.Sort is not stable, so for equal sort titles the model fixes no particular order.
- **Missing struct fields.** The resolvers and `GetArtwork` read `Library.Metavideos` and `Library.Metarenditions`, which the `Library` struct does not have. The model reads `Videos` instead. `GetArtwork` looks the ID up in `Videos`, so a rendition's ID is "video not found", and then reads the path stored under the video ID in `RenditionPath`, which ingesting writes for every file that gets through.
- Artwork.GetArtwork: a video stored without a path also gives "video not found". Only an episode panic leaves such a video, and in Go that panic ends the program before any lookup.
- **ByEpisode fields.** `ByEpisode.Less` reads `Series.SortName` and `Season` directly on an episode, which the `Episode` type does not have. It is read as the key (series sort name of the episode's season, season number, episode number). `Resolvers.KeyOf` gives an episode with no stored season or series the key ("", 0, number); a valid library has no such episode.
- Resolvers.QueryVideos, Resolvers.QuerySeries, Resolvers.QuerySeasons, Resolvers.SeriesSeasons, Resolvers.SortedEpisodes and the other episode resolvers require a valid library. `CatalogLemmas.SurveyPreservesValid` shows every survey of a valid (for example a new) library keeps it valid.
- **Integers.** Go's `int` is 64 bits. Sizes, years and image arithmetic are unbounded integers here, so 64-bit overflow of `height * size.X` is not modelled. Season and episode numbers are decoded as int32 exactly.
- Text.Atoi: returns None for every syntax error, which Go maps to 0 here. Go's range error (19 or more digits) is not modelled, because only four-character dates are parsed.
- **Stale duplicates.** `graph/artwork.resolver.go` and `graph/episode.resolver.go` duplicate the modelled functions with fields that do not exist, and they are not part of this model.
