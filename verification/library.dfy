/**
 * The catalog builder of graph/model/library.go: a Library of four maps, filled by ingesting one
 * .m4v file at a time.
 *
 * hashToStr (SHA-256, then base64) is not part of this model: the library holds it as an
 * arbitrary function `hash`, and the few facts that need distinct keys to get distinct IDs
 * assume it is injective. A file's metadata comes from the Mp4 reader over an abstract container.
 */
module Catalog {
  import opened Wrappers
  import opened Text
  import opened Model
  import opened ModelUtil
  import Mp4

  /** A clean path, split: rooted or not, its directories outermost first, and its base name. */
  datatype FilePath = FilePath(rooted: bool, dirs: seq<string>, name: string)

  function Join(parts: seq<string>): string
    decreases |parts|
  {
    if |parts| == 0 then ""
    else if |parts| == 1 then parts[0]
    else parts[0] + "/" + Join(parts[1..])
  }

  /** The path as the string filepath.Walk passes to its callback. */
  function Render(p: FilePath): string {
    (if p.rooted then "/" else "") + Join(p.dirs + [p.name])
  }

  // IDs

  /** The string fmt.Sprintf("%s (%d)", ...) builds for a title and a year. */
  function TitleYearKey(title: string, year: int): string {
    title + " (" + Itoa(year) + ")"
  }

  /** idFromTitleAndYear */
  function IdFromTitleAndYear(hash: string -> string, title: string, year: int): string {
    hash(TitleYearKey(title, year))
  }

  /** idFromSeriesAndSeason */
  function IdFromSeriesAndSeason(hash: string -> string, series: string, season: int): string {
    hash(TitleYearKey(series, season))
  }

  ghost predicate Injective(hash: string -> string) {
    forall a, b :: hash(a) == hash(b) ==> a == b
  }

  /** The key's only '(' after the title is the one it adds. */
  lemma KeyShape(t: string, y: int)
    ensures |TitleYearKey(t, y)| == |t| + |Itoa(y)| + 3
    ensures TitleYearKey(t, y)[..|t|] == t && TitleYearKey(t, y)[|t| + 1] == '('
    ensures TitleYearKey(t, y)[|t| + 2..|TitleYearKey(t, y)| - 1] == Itoa(y)
    ensures forall j :: |t| + 1 < j < |TitleYearKey(t, y)| ==> TitleYearKey(t, y)[j] != '('
  {
    ItoaChars(y);
    var k := TitleYearKey(t, y);
    assert k == t + " (" + Itoa(y) + ")";
    forall j | |t| + 1 < j < |k|
      ensures k[j] != '('
    {
      if j < |k| - 1 {
        assert k[j] == Itoa(y)[j - |t| - 2];
      }
    }
  }

  /** The formatted key determines the title and the year: Itoa never prints a '('. */
  lemma TitleYearKeyInjective(t1: string, y1: int, t2: string, y2: int)
    requires TitleYearKey(t1, y1) == TitleYearKey(t2, y2)
    ensures t1 == t2 && y1 == y2
  {
    KeyShape(t1, y1);
    KeyShape(t2, y2);
    assert |t1| == |t2|;
    ItoaInjective(y1, y2);
  }

  /** With an injective hash, a video ID stands for exactly one title and year. */
  lemma VideoIdIdentifiesTitleAndYear(hash: string -> string, t1: string, y1: int, t2: string, y2: int)
    requires Injective(hash)
    ensures IdFromTitleAndYear(hash, t1, y1) == IdFromTitleAndYear(hash, t2, y2) <==> t1 == t2 && y1 == y2
  {
    if IdFromTitleAndYear(hash, t1, y1) == IdFromTitleAndYear(hash, t2, y2) {
      TitleYearKeyInjective(t1, y1, t2, y2);
    }
  }

  /** With an injective hash, a season ID stands for exactly one series name and season number. */
  lemma SeasonIdIdentifiesSeriesAndSeason(hash: string -> string, s1: string, n1: int, s2: string, n2: int)
    requires Injective(hash)
    ensures IdFromSeriesAndSeason(hash, s1, n1) == IdFromSeriesAndSeason(hash, s2, n2) <==> s1 == s2 && n1 == n2
  {
    if IdFromSeriesAndSeason(hash, s1, n1) == IdFromSeriesAndSeason(hash, s2, n2) {
      TitleYearKeyInjective(s1, n1, s2, n2);
    }
  }

  // Quality from the directory names

  /** The resolution a directory name announces: the first of " 480p30", " 720p30", " 1080p30" it contains. */
  function ResolutionToken(element: string): Option<string> {
    if Contains(element, " 480p30") then Some("480p")
    else if Contains(element, " 720p30") then Some("720p")
    else if Contains(element, " 1080p30") then Some("1080p")
    else None
  }

  /** The transcode budget a directory name starts with. */
  function BudgetToken(element: string): Option<TranscodeBudget> {
    if HasPrefix(element, "Very Fast ") then Some(VeryFast)
    else if HasPrefix(element, "Fast ") then Some(Fast)
    else if HasPrefix(element, "HQ ") then Some(Hq)
    else if HasPrefix(element, "Super HQ ") then Some(SuperHq)
    else None
  }

  predicate IsX265(element: string) {
    Contains(element, "--encoder=x265")
  }

  /** One iteration of qualityFromPath's loop. */
  function ApplyElement(q: Quality, element: string): Quality {
    Quality(
      if IsX265(element) then H265 else q.codec,
      ResolutionToken(element).GetOr(q.resolution),
      if BudgetToken(element).Some? then BudgetToken(element) else q.budget)
  }

  const DEFAULT_QUALITY := Quality(H264, "", None)

  /** The quality qualityFromPath computes: the directories applied from innermost to outermost. */
  function QualityOf(dirs: seq<string>): (r: Quality)
    ensures r.resolution in {"", "480p", "720p", "1080p"}
    decreases |dirs|
  {
    if dirs == [] then DEFAULT_QUALITY else ApplyElement(QualityOf(dirs[1..]), dirs[0])
  }

  /** The token of the outermost directory that has one. */
  function Outermost<T>(dirs: seq<string>, token: string -> Option<T>): (r: Option<T>)
    ensures r.None? <==> forall i :: 0 <= i < |dirs| ==> token(dirs[i]).None?
    ensures r.Some? ==> exists i :: 0 <= i < |dirs| && token(dirs[i]) == r && forall j :: 0 <= j < i ==> token(dirs[j]).None?
    decreases |dirs|
  {
    if dirs == [] then None
    else if token(dirs[0]).Some? then token(dirs[0])
    else
      var r := Outermost(dirs[1..], token);
      assert forall i :: 1 <= i < |dirs| ==> dirs[i] == dirs[1..][i - 1];
      r
  }

  /**
   * For each of codec, resolution and budget the outermost directory that says something wins;
   * the codec is H.265 exactly when some directory names the x265 encoder.
   */
  lemma {:induction false} QualityOutermostWins(dirs: seq<string>)
    ensures QualityOf(dirs).codec == H265 <==> exists i :: 0 <= i < |dirs| && IsX265(dirs[i])
    ensures QualityOf(dirs).resolution == Outermost(dirs, ResolutionToken).GetOr("")
    ensures QualityOf(dirs).budget == Outermost(dirs, BudgetToken)
    decreases |dirs|
  {
    if dirs != [] {
      QualityOutermostWins(dirs[1..]);
      assert forall i :: 1 <= i < |dirs| ==> dirs[i] == dirs[1..][i - 1];
      if exists i :: 0 <= i < |dirs| && IsX265(dirs[i]) {
        var i :| 0 <= i < |dirs| && IsX265(dirs[i]);
        if i > 0 {
          assert IsX265(dirs[1..][i - 1]);
        }
      }
    }
  }

  /** qualityFromPath: walks up the directories from the innermost, as filepath.Dir does. */
  method QualityFromPath(path: FilePath) returns (q: Quality)
    ensures q == QualityOf(path.dirs)
  {
    q := DEFAULT_QUALITY;
    var i := |path.dirs|;
    while i > 0
      invariant 0 <= i <= |path.dirs|
      invariant q == QualityOf(path.dirs[i..])
    {
      i := i - 1;
      var element := path.dirs[i];
      assert path.dirs[i..][1..] == path.dirs[i + 1..];
      if Contains(element, "--encoder=x265") {
        q := q.(codec := H265);
      }
      if Contains(element, " 480p30") {
        q := q.(resolution := "480p");
      } else if Contains(element, " 720p30") {
        q := q.(resolution := "720p");
      } else if Contains(element, " 1080p30") {
        q := q.(resolution := "1080p");
      }
      if HasPrefix(element, "Very Fast ") {
        q := q.(budget := Some(VeryFast));
      } else if HasPrefix(element, "Fast ") {
        q := q.(budget := Some(Fast));
      } else if HasPrefix(element, "HQ ") {
        q := q.(budget := Some(Hq));
      } else if HasPrefix(element, "Super HQ ") {
        q := q.(budget := Some(SuperHq));
      }
    }
  }

  // The library

  /** The four maps of a Library. */
  datatype LibraryState = LibraryState(
    videos: map<string, Video>,
    series: map<string, Series>,
    seasons: map<string, Season>,
    renditionPath: map<string, string>)
  {
    /** Every entity is stored under its own ID, and every link leads to a stored entity. */
    ghost predicate Valid() {
      && (forall id :: id in videos ==> videos[id].id == id)
      && (forall id :: id in series ==> series[id].id == id)
      && (forall id :: id in seasons ==> seasons[id].id == id && seasons[id].seriesId in series)
      && (forall id :: id in videos && videos[id].episode.Some? ==>
            videos[id].episode.value.videoId == id && videos[id].episode.value.seasonId in seasons)
    }
  }

  const EMPTY := LibraryState(map[], map[], map[], map[])

  /** What ingesting a file leaves: the library, and the panic that stopped it, if any. */
  datatype Ingested = Ingested(state: LibraryState, panic: Option<string>)

  /** Every video, series, season and path stored in `st` is still stored in `st'`. */
  predicate Grows(st: LibraryState, st': LibraryState) {
    && st.videos.Keys <= st'.videos.Keys && st.series.Keys <= st'.series.Keys
    && st.seasons.Keys <= st'.seasons.Keys && st.renditionPath.Keys <= st'.renditionPath.Keys
  }

  // The steps of ingesting one file, over values already read from it

  /** What one file says about its video: the ID, title and year it is filed under, and the rest. */
  datatype VideoPlan = VideoPlan(id: string, title: string, year: int, sortTitle: string,
                                 genre: Option<string>, description: Option<string>)

  /** What one file says about its series, season and episode. */
  datatype EpisodePlan = EpisodePlan(seriesId: string, seriesName: string, sortName: string,
                                     seasonId: string, season: int, episode: int)

  /**
   * What ingesting one file does: either it panics before touching the library, or it files its
   * video, then either panics in the series branch or links the episode (if any) and appends
   * the rendition, recorded under `path`.
   */
  datatype Plan =
    | Abort(reason: string)
    | Store(video: VideoPlan, episode: Option<EpisodePlan>, panic: Option<string>, rendition: Rendition, path: string)

  /** The video a file creates when none is stored under its ID. */
  function NewVideo(v: VideoPlan): Video {
    Video(v.id, v.title, "", v.year, None, None, [], None)
  }

  /** The sort title is always set; genre and description only when the file has one. */
  function Describe(video: Video, sortTitle: string, genre: Option<string>, description: Option<string>): Video {
    video.(sortTitle := sortTitle,
           genre := if genre.Some? then genre else video.genre,
           description := if description.Some? then description else video.description)
  }

  /** The first locked region and the writes that follow it: get-or-create the video, then describe it. */
  function FileVideo(st: LibraryState, v: VideoPlan): (r: LibraryState)
    ensures v.id in r.videos
  {
    var existing := if v.id in st.videos then st.videos[v.id] else NewVideo(v);
    st.(videos := st.videos[v.id := Describe(existing, v.sortTitle, v.genre, v.description)])
  }

  /** The series branch's locked region: get-or-create the series and the season, link the episode once. */
  function LinkEpisode(st: LibraryState, videoId: string, seriesId: string, seriesName: string,
                       seasonId: string, season: int, episode: int): (r: LibraryState)
    requires videoId in st.videos
    ensures videoId in r.videos && seriesId in r.series
  {
    var series := if seriesId in st.series then st.series[seriesId] else Series(seriesId, seriesName, "");
    var stored := if seasonId in st.seasons then st.seasons[seasonId] else Season(seasonId, season, series.id);
    var video := st.videos[videoId];
    var linked := if video.episode.None? then video.(episode := Some(Episode(stored.id, episode, video.id))) else video;
    LibraryState(
      st.videos[videoId := linked],
      st.series[seriesId := series],
      st.seasons[seasonId := stored],
      st.renditionPath)
  }

  /** The series branch: the locked region, then the series' sort name. */
  function AddEpisode(st: LibraryState, videoId: string, e: EpisodePlan): (r: LibraryState)
    requires videoId in st.videos
    ensures videoId in r.videos
  {
    var linked := LinkEpisode(st, videoId, e.seriesId, e.seriesName, e.seasonId, e.season, e.episode);
    linked.(series := linked.series[e.seriesId := linked.series[e.seriesId].(sortName := e.sortName)])
  }

  /** The last locked region: the path under the rendition's ID and the video's ID, the rendition appended. */
  function AddRendition(st: LibraryState, videoId: string, rendition: Rendition, path: string): LibraryState
    requires videoId in st.videos
  {
    var video := st.videos[videoId];
    st.(renditionPath := st.renditionPath[rendition.id := path][videoId := path],
        videos := st.videos[videoId := video.(renditions := video.renditions + [rendition])])
  }

  /**
   * Carrying out a plan. Nothing stored is ever removed, and a plan carried out to the end
   * leaves the file's path under its video's ID.
   */
  function Apply(st: LibraryState, p: Plan): (r: Ingested)
    ensures Grows(st, r.state)
    ensures r.panic.None? <==> p.Store? && p.panic.None?
    ensures r.panic.None? ==> p.video.id in r.state.videos && p.video.id in r.state.renditionPath
                              && r.state.renditionPath[p.video.id] == p.path
  {
    match p
    case Abort(reason) => Ingested(st, Some(reason))
    case Store(v, episode, panic, rendition, path) =>
      var filed := FileVideo(st, v);
      if panic.Some? then Ingested(filed, panic)
      else
        var linked := if episode.Some? then AddEpisode(filed, v.id, episode.value) else filed;
        Ingested(AddRendition(linked, v.id, rendition, path), None)
  }

  // What a file's metadata decides

  /** What ingesting a file reads from it, accessor by accessor. */
  datatype Metadata = Metadata(
    title: Result<string, Mp4.Error>, releaseDate: Result<string, Mp4.Error>,
    sortTitle: Result<string, Mp4.Error>, genre: Result<string, Mp4.Error>,
    description: Result<string, Mp4.Error>, tvShowName: Result<string, Mp4.Error>,
    tvSortShowName: Result<string, Mp4.Error>, tvSeason: Result<int, Mp4.Error>,
    tvEpisode: Result<int, Mp4.Error>)

  function Read(x: Mp4.Extraction): Metadata {
    Metadata(x.Title(), x.ReleaseDate(), x.SortTitle(), x.Genre(), x.Description(),
             x.TVShowName(), x.TVSortShowName(), x.TVSeason(), x.TVEpisode())
  }

  /** An accessor's value when it succeeds with a non-empty string. */
  function NonEmpty(r: Result<string, Mp4.Error>): (o: Option<string>)
    ensures o.Some? <==> r.Success? && r.value != ""
    ensures o.Some? ==> o.value == r.value
  {
    if r.Success? && r.value != "" then Some(r.value) else None
  }

  predicate Panicked<T>(r: Result<T, Mp4.Error>) {
    r.Failure? && r.error.Crash?
  }

  /** The title, or the base name without its extension. */
  function TitleOf(m: Metadata, path: FilePath): string {
    NonEmpty(m.title).GetOr(TrimSuffix(path.name, Ext(path.name)))
  }

  /** The release date, or "1900". */
  function ReleaseDateOf(m: Metadata): string {
    NonEmpty(m.releaseDate).GetOr("1900")
  }

  /** The year: Atoi of the first four characters, or 0 when they do not parse. */
  function YearOf(date: string): int
    requires |date| >= 4
  {
    Atoi(date[..4]).GetOr(0)
  }

  function SeasonNumberOf(m: Metadata): int {
    if m.tvSeason.Success? then m.tvSeason.value else 1
  }

  function EpisodeNumberOf(m: Metadata): int {
    if m.tvEpisode.Success? then m.tvEpisode.value else 0
  }

  /** The (title, year) a file is filed under, or None when ingesting panics before it is known. */
  function VideoKey(m: Metadata, path: FilePath): Option<(string, int)> {
    if Panicked(m.title) || |ReleaseDateOf(m)| < 4 then None
    else Some((TitleOf(m, path), YearOf(ReleaseDateOf(m))))
  }

  /** The series values of a file whose series name is `name`. */
  function EpisodePlanOf(hash: string -> string, name: string, m: Metadata): EpisodePlan {
    EpisodePlan(hash(name), name, NonEmpty(m.tvSortShowName).GetOr(SortableTitle(name)),
                IdFromSeriesAndSeason(hash, name, SeasonNumberOf(m)), SeasonNumberOf(m), EpisodeNumberOf(m))
  }

  /** The rendition this file is: the hash of its path, the quality its directories name, its size. */
  function RenditionOf(hash: string -> string, path: FilePath, size: int): Rendition {
    Rendition(hash(Render(path)), Some(QualityOf(path.dirs)), size)
  }

  /** The video values of a file that gets as far as filing its video. */
  function VideoPlanOf(hash: string -> string, path: FilePath, m: Metadata): (v: VideoPlan)
    requires VideoKey(m, path).Some?
    ensures (v.title, v.year) == VideoKey(m, path).value
    ensures v.id == IdFromTitleAndYear(hash, v.title, v.year)
  {
    var (title, year) := VideoKey(m, path).value;
    VideoPlan(IdFromTitleAndYear(hash, title, year), title, year,
              NonEmpty(m.sortTitle).GetOr(SortableTitle(title)), NonEmpty(m.genre), NonEmpty(m.description))
  }

  /** The series values, for a file with a non-empty series name. */
  function SeriesPlanOf(hash: string -> string, m: Metadata): (e: Option<EpisodePlan>)
    ensures e.Some? <==> NonEmpty(m.tvShowName).Some?
  {
    if NonEmpty(m.tvShowName).Some? then Some(EpisodePlanOf(hash, NonEmpty(m.tvShowName).value, m)) else None
  }

  /** The video values, or the panic that comes first: Title's, or the slice of a short date. */
  function VideoStage(hash: string -> string, path: FilePath, m: Metadata): (r: Result<VideoPlan, string>)
    ensures r.Success? <==> VideoKey(m, path).Some?
  {
    if Panicked(m.title) then Failure(m.title.error.reason)
    else if |ReleaseDateOf(m)| < 4 then Failure("slice bounds out of range")
    else Success(VideoPlanOf(hash, path, m))
  }

  /** What a file with metadata `m`, found at `path` with `size` bytes, does to the library. */
  function PlanOf(hash: string -> string, path: FilePath, size: int, m: Metadata): Plan {
    match VideoStage(hash, path, m)
    case Failure(reason) => Abort(reason)
    case Success(video) =>
      var episode := SeriesPlanOf(hash, m);
      var panic := if episode.Some? && Panicked(m.tvEpisode) then Some(m.tvEpisode.error.reason) else None;
      Store(video, episode, panic, RenditionOf(hash, path, size), Render(path))
  }

  /**
   * The body of Survey's per-file function, for a file whose metadata reads as `m`. A file
   * that goes all the way through has a title and year, and its rendered path is filed under
   * the video's ID.
   */
  function Ingest(st: LibraryState, hash: string -> string, path: FilePath, size: int, m: Metadata): (r: Ingested)
    ensures Grows(st, r.state)
    ensures r.panic.None? ==> VideoKey(m, path).Some? && Render(path) in r.state.renditionPath.Values
  {
    Apply(st, PlanOf(hash, path, size, m))
  }

  /** One entry of filepath.Walk: a path, the walk's error for it, its size and what opening it gives. */
  datatype WalkEntry = WalkEntry(path: FilePath, err: Option<string>, size: int, open: Result<Mp4.Container, string>)

  /** What Survey returns: the library, the error that ended the walk, and a panic. */
  datatype Surveyed = Surveyed(state: LibraryState, err: Option<string>, panic: Option<string>)

  /** Survey over the walk's entries: errors end the walk, non-.m4v paths are skipped. */
  function SurveyOf(st: LibraryState, hash: string -> string, entries: seq<WalkEntry>): (r: Surveyed)
    ensures Grows(st, r.state)
    ensures r.err.None? || r.panic.None?
    ensures r.err.Some? ==> exists i :: 0 <= i < |entries| && (entries[i].err == r.err || entries[i].open == Failure(r.err.value))
    decreases |entries|
  {
    if entries == [] then Surveyed(st, None, None)
    else
      var e := entries[0];
      if e.err.Some? then Surveyed(st, e.err, None)
      else if Ext(e.path.name) != ".m4v" then SurveyOf(st, hash, entries[1..])
      else if e.open.Failure? then Surveyed(st, Some(e.open.error), None)
      else
        var r := Ingest(st, hash, e.path, e.size, Read(Mp4.Extract(e.open.value)));
        if r.panic.Some? then Surveyed(r.state, None, r.panic)
        else SurveyOf(r.state, hash, entries[1..])
  }

  /** Storing under a key twice keeps the second value. */
  lemma Overwrite<K, V>(m: map<K, V>, k: K, u: V, v: V)
    ensures m[k := u][k := v] == m[k := v]
  {
  }

  // Reading a file's metadata, one accessor call at a time

  /** The title (or the base-name fallback) and the year; a panic where Title or the date slice panics. */
  method ReadTitleAndYear(path: FilePath, file: Mp4.File) returns (panic: Option<string>, title: string, year: int)
    requires file.Valid()
    modifies file
    ensures file.Valid()
    ensures var m := Read(Mp4.Extract(file.source));
      if Panicked(m.title) then panic == Some(m.title.error.reason)
      else if |ReleaseDateOf(m)| < 4 then panic == Some("slice bounds out of range")
      else panic.None? && title == TitleOf(m, path) && year == YearOf(ReleaseDateOf(m))
  {
    title, year := "", 0;
    var t := file.Title();
    if t.Failure? && t.error.Crash? {
      return Some(t.error.reason), title, year;
    }
    title := if t.Success? && t.value != "" then t.value else TrimSuffix(path.name, Ext(path.name));
    var d := file.ReleaseDate();
    var releaseDate := if d.Success? && d.value != "" then d.value else "1900";
    if |releaseDate| < 4 {
      return Some("slice bounds out of range"), title, year;
    }
    year := Atoi(releaseDate[..4]).GetOr(0);
    panic := None;
  }

  /** The sort title, genre and description updates on the video. */
  method DescribeVideo(video: Video, title: string, file: Mp4.File) returns (described: Video)
    requires file.Valid()
    modifies file
    ensures file.Valid()
    ensures var m := Read(Mp4.Extract(file.source));
      described == Describe(video, NonEmpty(m.sortTitle).GetOr(SortableTitle(title)), NonEmpty(m.genre), NonEmpty(m.description))
  {
    var sortTitle := ReadSortTitle(title, file);
    var genre := ReadGenre(video.genre, file);
    var description := ReadDescription(video.description, file);
    described := video.(sortTitle := sortTitle, genre := genre, description := description);
  }

  method ReadSortTitle(title: string, file: Mp4.File) returns (sortTitle: string)
    requires file.Valid()
    modifies file
    ensures file.Valid()
    ensures sortTitle == NonEmpty(Read(Mp4.Extract(file.source)).sortTitle).GetOr(SortableTitle(title))
  {
    var s := file.SortTitle();
    if s.Failure? || s.value == "" {
      sortTitle := SortableTitle(title);
    } else {
      sortTitle := s.value;
    }
  }

  /** The genre (or the description): replaced only by a non-empty value. */
  /** The genre: a non-empty Genre replaces `previous`, anything else keeps it. */
  method ReadGenre(previous: Option<string>, file: Mp4.File) returns (r: Option<string>)
    requires file.Valid()
    modifies file
    ensures file.Valid()
    ensures var read := Read(Mp4.Extract(file.source)).genre;
      r == if NonEmpty(read).Some? then NonEmpty(read) else previous
  {
    var g := file.Genre();
    r := previous;
    if g.Success? && g.value != "" {
      r := Some(g.value);
    }
  }

  /** The description: a non-empty Description replaces `previous`, anything else keeps it. */
  method ReadDescription(previous: Option<string>, file: Mp4.File) returns (r: Option<string>)
    requires file.Valid()
    modifies file
    ensures file.Valid()
    ensures var read := Read(Mp4.Extract(file.source)).description;
      r == if NonEmpty(read).Some? then NonEmpty(read) else previous
  {
    var d := file.Description();
    r := previous;
    if d.Success? && d.value != "" {
      r := Some(d.value);
    }
  }

  /** The season (1 when unreadable) and the episode (0 when unreadable), or TVEpisode's panic. */
  method ReadSeasonAndEpisode(file: Mp4.File) returns (panic: Option<string>, season: int, episode: int)
    requires file.Valid()
    modifies file
    ensures file.Valid()
    ensures var m := Read(Mp4.Extract(file.source));
      if Panicked(m.tvEpisode) then panic == Some(m.tvEpisode.error.reason)
      else panic.None? && season == SeasonNumberOf(m) && episode == EpisodeNumberOf(m)
  {
    var seasonNumber := file.TVSeason();
    season := if seasonNumber.Success? then seasonNumber.value else 1;
    var episodeNumber := file.TVEpisode();
    if episodeNumber.Failure? && episodeNumber.error.Crash? {
      return Some(episodeNumber.error.reason), season, 0;
    }
    episode := if episodeNumber.Success? then episodeNumber.value else 0;
    panic := None;
  }

  method ReadSeriesSortName(seriesName: string, file: Mp4.File) returns (sortName: string)
    requires file.Valid()
    modifies file
    ensures file.Valid()
    ensures sortName == NonEmpty(Read(Mp4.Extract(file.source)).tvSortShowName).GetOr(SortableTitle(seriesName))
  {
    var s := file.TVSortShowName();
    if s.Success? && s.value != "" {
      sortName := s.value;
    } else {
      sortName := SortableTitle(seriesName);
    }
  }

  /** Library */
  class Library {
    var videos: map<string, Video>
    var series: map<string, Series>
    var seasons: map<string, Season>
    var renditionPath: map<string, string>
    const hash: string -> string

    function State(): LibraryState
      reads this
    {
      LibraryState(videos, series, seasons, renditionPath)
    }

    ghost predicate Valid()
      reads this
    {
      State().Valid()
    }

    /** NewLibrary, with hashToStr as a parameter */
    constructor (hash: string -> string)
      ensures State() == EMPTY && Valid()
      ensures this.hash == hash
    {
      this.hash := hash;
      videos, series, seasons, renditionPath := map[], map[], map[], map[];
    }

    /** Survey's per-file function, from the reader onwards. */
    method IngestFile(path: FilePath, size: int, file: Mp4.File) returns (panic: Option<string>)
      requires file.Valid()
      modifies this, file
      ensures file.Valid()
      ensures Ingest(old(State()), hash, path, size, Read(Mp4.Extract(file.source))) == Ingested(State(), panic)
    {
      ghost var m := Read(Mp4.Extract(file.source));
      ghost var plan := PlanOf(hash, path, size, m);
      var id;
      panic, id := FileVideoFor(path, file);
      if panic.Some? {
        return;
      }
      ghost var filed := State();
      var seriesName := file.TVShowName();
      if seriesName.Success? && seriesName.value != "" {
        panic := AddEpisodeFor(id, seriesName.value, file);
        if panic.Some? {
          return;
        }
      }
      assert plan.panic.None?;
      assert State() == if plan.episode.Some? then AddEpisode(filed, id, plan.episode.value) else filed;
      AppendRendition(path, size, id);
    }

    /** Reading the title and the year, then filing and describing the video. */
    method FileVideoFor(path: FilePath, file: Mp4.File) returns (panic: Option<string>, id: string)
      requires file.Valid()
      modifies this, file
      ensures file.Valid()
      ensures var stage := VideoStage(hash, path, Read(Mp4.Extract(file.source)));
        if stage.Failure? then panic == Some(stage.error) && State() == old(State())
        else panic.None? && id == stage.value.id && State() == FileVideo(old(State()), stage.value)
    {
      ghost var m := Read(Mp4.Extract(file.source));
      var title, releaseYear;
      panic, title, releaseYear := ReadTitleAndYear(path, file);
      if panic.Some? {
        return panic, "";
      }
      id := IdFromTitleAndYear(hash, title, releaseYear);
      ghost var st := old(State());
      var video := GetOrCreateVideo(id, title, releaseYear);
      ghost var existing := video;
      video := DescribeVideo(video, title, file);
      Overwrite(st.videos, id, existing, video);
      videos := videos[id := video];
      assert VideoStage(hash, path, m) == Success(VideoPlanOf(hash, path, m));
    }

    /** The first locked region: the stored video under `id`, or a new one stored there. */
    method GetOrCreateVideo(id: string, title: string, releaseYear: int) returns (video: Video)
      modifies this
      ensures video == if id in old(videos) then old(videos)[id] else Video(id, title, "", releaseYear, None, None, [], None)
      ensures videos == old(videos)[id := video]
      ensures series == old(series) && seasons == old(seasons) && renditionPath == old(renditionPath)
    {
      if id in videos {
        video := videos[id];
      } else {
        video := Video(id, title, "", releaseYear, None, None, [], None);
        videos := videos[id := video];
      }
    }

    /** The series branch, for a file with a non-empty series name. */
    method AddEpisodeFor(id: string, seriesName: string, file: Mp4.File) returns (panic: Option<string>)
      requires file.Valid() && id in videos
      modifies this, file
      ensures file.Valid()
      ensures var m := Read(Mp4.Extract(file.source));
        if Panicked(m.tvEpisode) then panic == Some(m.tvEpisode.error.reason) && State() == old(State())
        else panic.None? && State() == AddEpisode(old(State()), id, EpisodePlanOf(hash, seriesName, m))
    {
      var season, episode;
      panic, season, episode := ReadSeasonAndEpisode(file);
      if panic.Some? {
        return;
      }
      var seasonId := IdFromSeriesAndSeason(hash, seriesName, season);
      var seriesId := hash(seriesName);
      Link(id, seriesId, seriesName, seasonId, season, episode);
      var sortName := ReadSeriesSortName(seriesName, file);
      series := series[seriesId := series[seriesId].(sortName := sortName)];
    }

    /** The series branch's locked region. */
    method Link(id: string, seriesId: string, seriesName: string, seasonId: string, season: int, episode: int)
      requires id in videos
      modifies this
      ensures State() == LinkEpisode(old(State()), id, seriesId, seriesName, seasonId, season, episode)
    {
      var s := GetOrCreateSeries(seriesId, seriesName);
      var n := GetOrCreateSeason(seasonId, season, s.id);
      var video := videos[id];
      if video.episode.None? {
        video := video.(episode := Some(Episode(n.id, episode, video.id)));
        videos := videos[id := video];
      }
    }

    method GetOrCreateSeries(seriesId: string, seriesName: string) returns (s: Series)
      modifies this
      ensures s == if seriesId in old(series) then old(series)[seriesId] else Series(seriesId, seriesName, "")
      ensures series == old(series)[seriesId := s]
      ensures videos == old(videos) && seasons == old(seasons) && renditionPath == old(renditionPath)
    {
      if seriesId in series {
        s := series[seriesId];
      } else {
        s := Series(seriesId, seriesName, "");
        series := series[seriesId := s];
      }
    }

    method GetOrCreateSeason(seasonId: string, number: int, seriesId: string) returns (n: Season)
      modifies this
      ensures n == if seasonId in old(seasons) then old(seasons)[seasonId] else Season(seasonId, number, seriesId)
      ensures seasons == old(seasons)[seasonId := n]
      ensures videos == old(videos) && series == old(series) && renditionPath == old(renditionPath)
    {
      if seasonId in seasons {
        n := seasons[seasonId];
      } else {
        n := Season(seasonId, number, seriesId);
        seasons := seasons[seasonId := n];
      }
    }

    /** The last locked region: record the path under both IDs and append the rendition. */
    method AppendRendition(path: FilePath, size: int, id: string)
      requires id in videos
      modifies this
      ensures State() == AddRendition(old(State()), id, RenditionOf(hash, path, size), Render(path))
    {
      var p := Render(path);
      var renditionId := hash(p);
      var quality := QualityFromPath(path);
      var rendition := Rendition(renditionId, Some(quality), size);
      renditionPath := renditionPath[renditionId := p];
      renditionPath := renditionPath[id := p];
      var video := videos[id];
      video := video.(renditions := video.renditions + [rendition]);
      videos := videos[id := video];
    }

    /** Survey: the walk's entries in order, each .m4v file opened and ingested. */
    method Survey(entries: seq<WalkEntry>) returns (err: Option<string>, panic: Option<string>)
      modifies this
      ensures SurveyOf(old(State()), hash, entries) == Surveyed(State(), err, panic)
    {
      var i := 0;
      while i < |entries|
        invariant 0 <= i <= |entries|
        invariant SurveyOf(State(), hash, entries[i..]) == SurveyOf(old(State()), hash, entries)
      {
        var e := entries[i];
        assert entries[i..][1..] == entries[i + 1..];
        if e.err.Some? {
          return e.err, None;
        }
        if Ext(e.path.name) == ".m4v" {
          if e.open.Failure? {
            return Some(e.open.error), None;
          }
          var file := new Mp4.File(e.open.value);
          panic := IngestFile(e.path, e.size, file);
          if panic.Some? {
            return None, panic;
          }
        }
        i := i + 1;
      }
      return None, None;
    }
  }
}
