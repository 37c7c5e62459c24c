/** What ingesting one file does to the library, stated over the model of graph/model/library.go. */
module CatalogLemmas {
  import opened Wrappers
  import opened Text
  import opened Model
  import opened ModelUtil
  import opened Catalog
  import Mp4

  // Carrying out a plan

  lemma FileVideoPreservesValid(st: LibraryState, v: VideoPlan)
    requires st.Valid()
    ensures FileVideo(st, v).Valid()
  {
  }

  lemma AddEpisodePreservesValid(st: LibraryState, videoId: string, e: EpisodePlan)
    requires st.Valid() && videoId in st.videos
    ensures AddEpisode(st, videoId, e).Valid()
  {
    var linked := LinkEpisode(st, videoId, e.seriesId, e.seriesName, e.seasonId, e.season, e.episode);
    assert linked.Valid();
  }

  lemma AddRenditionPreservesValid(st: LibraryState, videoId: string, r: Rendition, path: string)
    requires st.Valid() && videoId in st.videos
    ensures AddRendition(st, videoId, r, path).Valid()
  {
  }

  /** Whatever a file says, the library keeps every entity under its ID and every link resolvable. */
  lemma {:induction false} ApplyPreservesValid(st: LibraryState, p: Plan)
    requires st.Valid()
    ensures Apply(st, p).state.Valid()
  {
    if p.Store? {
      var filed := FileVideo(st, p.video);
      FileVideoPreservesValid(st, p.video);
      if p.panic.None? {
        var linked := if p.episode.Some? then AddEpisode(filed, p.video.id, p.episode.value) else filed;
        if p.episode.Some? {
          AddEpisodePreservesValid(filed, p.video.id, p.episode.value);
        }
        AddRenditionPreservesValid(linked, p.video.id, p.rendition, p.path);
      }
    }
  }

  /**
   * The video's ID, title and year are set only when it is created; no other video changes, and
   * the key set gains at most the plan's ID.
   */
  lemma ApplyFilesVideo(st: LibraryState, p: Plan)
    requires p.Store?
    ensures var id := p.video.id;
      var r := Apply(st, p).state;
      && r.videos.Keys == st.videos.Keys + {id}
      && (id in st.videos ==> r.videos[id].id == st.videos[id].id && r.videos[id].title == st.videos[id].title
                              && r.videos[id].releaseYear == st.videos[id].releaseYear)
      && (id !in st.videos ==> r.videos[id].id == id && r.videos[id].title == p.video.title
                               && r.videos[id].releaseYear == p.video.year)
      && (forall k :: k in st.videos && k != id ==> r.videos[k] == st.videos[k])
  {
  }

  /** The sort title is always rewritten; the genre and the description only by non-empty values. */
  lemma ApplyDescribesVideo(st: LibraryState, p: Plan)
    requires p.Store?
    ensures var id := p.video.id;
      var v := Apply(st, p).state.videos[id];
      && v.sortTitle == p.video.sortTitle
      && v.genre == (if p.video.genre.Some? then p.video.genre else if id in st.videos then st.videos[id].genre else None)
      && v.description == (if p.video.description.Some? then p.video.description
                           else if id in st.videos then st.videos[id].description else None)
  {
  }

  /** A completed plan appends its one rendition and records its path under both IDs. */
  lemma ApplyAppendsRendition(st: LibraryState, p: Plan)
    requires p.Store? && p.panic.None?
    ensures var id := p.video.id;
      var r := Apply(st, p).state;
      && r.videos[id].renditions == (if id in st.videos then st.videos[id].renditions else []) + [p.rendition]
      && r.renditionPath == st.renditionPath[p.rendition.id := p.path][id := p.path]
  {
  }

  /** A panic in the series branch leaves the video filed and described, with no rendition added. */
  lemma ApplySeriesPanic(st: LibraryState, p: Plan)
    requires p.Store? && p.panic.Some?
    ensures Apply(st, p) == Ingested(FileVideo(st, p.video), p.panic)
    ensures Apply(st, p).state.renditionPath == st.renditionPath
    ensures Apply(st, p).state.series == st.series && Apply(st, p).state.seasons == st.seasons
  {
  }

  /** Without a series, no series or season is touched and the video's episode link stays as it was. */
  lemma ApplyWithoutSeries(st: LibraryState, p: Plan)
    requires p.Store? && p.episode.None?
    ensures var r := Apply(st, p).state;
      && r.series == st.series && r.seasons == st.seasons
      && r.videos[p.video.id].episode == if p.video.id in st.videos then st.videos[p.video.id].episode else None
  {
  }

  /**
   * With a series: the series and the season are get-or-create, the series' sort name is
   * refreshed, nothing else among series and seasons changes, and a video is linked only once.
   */
  lemma ApplyLinksEpisode(st: LibraryState, p: Plan)
    requires st.Valid() && p.Store? && p.panic.None? && p.episode.Some?
    ensures var e := p.episode.value;
      var id := p.video.id;
      var r := Apply(st, p).state;
      && r.series == st.series[e.seriesId :=
           (if e.seriesId in st.series then st.series[e.seriesId] else Series(e.seriesId, e.seriesName, "")).(sortName := e.sortName)]
      && r.seasons == st.seasons[e.seasonId :=
           if e.seasonId in st.seasons then st.seasons[e.seasonId] else Season(e.seasonId, e.season, e.seriesId)]
      && (id in st.videos && st.videos[id].episode.Some? ==> r.videos[id].episode == st.videos[id].episode)
      && (id !in st.videos || st.videos[id].episode.None? ==> r.videos[id].episode == Some(Episode(e.seasonId, e.episode, id)))
  {
    var e := p.episode.value;
    var filed := FileVideo(st, p.video);
    FileVideoPreservesValid(st, p.video);
    AddEpisodeLinks(filed, p.video.id, e);
  }

  /** The series branch on its own, for a video already filed. */
  lemma AddEpisodeLinks(st: LibraryState, id: string, e: EpisodePlan)
    requires st.Valid() && id in st.videos
    ensures var r := AddEpisode(st, id, e);
      && r.series == st.series[e.seriesId :=
           (if e.seriesId in st.series then st.series[e.seriesId] else Series(e.seriesId, e.seriesName, "")).(sortName := e.sortName)]
      && r.seasons == st.seasons[e.seasonId :=
           if e.seasonId in st.seasons then st.seasons[e.seasonId] else Season(e.seasonId, e.season, e.seriesId)]
      && r.videos[id].episode == (if st.videos[id].episode.Some? then st.videos[id].episode else Some(Episode(e.seasonId, e.episode, id)))
  {
    var linked := LinkEpisode(st, id, e.seriesId, e.seriesName, e.seasonId, e.season, e.episode);
    assert linked.series[e.seriesId] == if e.seriesId in st.series then st.series[e.seriesId] else Series(e.seriesId, e.seriesName, "");
  }

  // Ingesting a file

  /** The ID of the video a file is filed under. */
  function VideoIdOf(hash: string -> string, m: Metadata, path: FilePath): (id: string)
    requires VideoKey(m, path).Some?
    ensures id == VideoPlanOf(hash, path, m).id
  {
    IdFromTitleAndYear(hash, VideoKey(m, path).value.0, VideoKey(m, path).value.1)
  }

  /** A file whose title panics, or whose date is shorter than four bytes, changes nothing. */
  lemma IngestAborts(st: LibraryState, hash: string -> string, path: FilePath, size: int, m: Metadata)
    requires VideoKey(m, path).None?
    ensures Ingest(st, hash, path, size, m).state == st
    ensures Ingest(st, hash, path, size, m).panic ==
      Some(if Panicked(m.title) then m.title.error.reason else "slice bounds out of range")
  {
  }

  /** Ingesting keeps every entity under its own ID and every link pointing at a stored entity. */
  lemma IngestPreservesValid(st: LibraryState, hash: string -> string, path: FilePath, size: int, m: Metadata)
    requires st.Valid()
    ensures Ingest(st, hash, path, size, m).state.Valid()
  {
    ApplyPreservesValid(st, PlanOf(hash, path, size, m));
  }

  /**
   * A video is identified by its title and year alone: the file lands in the video with that
   * ID, a video already there keeps its ID, title and year, and no other video changes.
   */
  lemma IngestFilesByTitleAndYear(st: LibraryState, hash: string -> string, path: FilePath, size: int, m: Metadata)
    requires VideoKey(m, path).Some?
    ensures var id := VideoIdOf(hash, m, path);
      var r := Ingest(st, hash, path, size, m).state;
      && r.videos.Keys == st.videos.Keys + {id}
      && (id in st.videos ==> r.videos[id].id == st.videos[id].id && r.videos[id].title == st.videos[id].title
                              && r.videos[id].releaseYear == st.videos[id].releaseYear)
      && (id !in st.videos ==> r.videos[id].id == id && r.videos[id].title == VideoKey(m, path).value.0
                               && r.videos[id].releaseYear == VideoKey(m, path).value.1)
      && (forall k :: k in st.videos && k != id ==> r.videos[k] == st.videos[k])
  {
    var p := PlanOf(hash, path, size, m);
    assert p.video == VideoPlanOf(hash, path, m);
    ApplyFilesVideo(st, p);
  }

  /** A file without a readable title is filed under its base name, one without a date under 1900. */
  lemma IngestFallbacks(m: Metadata, path: FilePath)
    requires !Panicked(m.title)
    ensures NonEmpty(m.title).None? ==> TitleOf(m, path) == TrimSuffix(path.name, Ext(path.name))
    ensures NonEmpty(m.title).Some? ==> TitleOf(m, path) == m.title.value
    ensures NonEmpty(m.releaseDate).None? ==> VideoKey(m, path) == Some((TitleOf(m, path), 1900))
  {
    if NonEmpty(m.releaseDate).None? {
      assert ReleaseDateOf(m)[..4] == "1900";
      assert DigitsValue("1900"[..3]) == 190 by {
        assert "1900"[..3][..2] == "19";
        assert "19"[..1] == "1";
        assert "1"[..0] == "";
      }
    }
  }

  /**
   * The sort title is rewritten by every file; the genre and the description only by a file that
   * has a non-empty one.
   */
  lemma IngestDescribesVideo(st: LibraryState, hash: string -> string, path: FilePath, size: int, m: Metadata)
    requires VideoKey(m, path).Some?
    ensures var id := VideoIdOf(hash, m, path);
      var v := Ingest(st, hash, path, size, m).state.videos[id];
      && v.sortTitle == NonEmpty(m.sortTitle).GetOr(SortableTitle(TitleOf(m, path)))
      && (NonEmpty(m.genre).Some? ==> v.genre == NonEmpty(m.genre))
      && (NonEmpty(m.genre).None? ==> v.genre == if id in st.videos then st.videos[id].genre else None)
      && (NonEmpty(m.description).Some? ==> v.description == NonEmpty(m.description))
      && (NonEmpty(m.description).None? ==> v.description == if id in st.videos then st.videos[id].description else None)
  {
    var p := PlanOf(hash, path, size, m);
    assert p.video == VideoPlanOf(hash, path, m);
    ApplyDescribesVideo(st, p);
  }

  /** An unreadable container ingests as a movie named after the file, dated 1900, with no series. */
  lemma IngestUnreadableFile(st: LibraryState, hash: string -> string, path: FilePath, size: int, c: Mp4.Container)
    requires c.lookup.Failure?
    ensures var m := Read(Mp4.Extract(c));
      var r := Ingest(st, hash, path, size, m);
      && r.panic.None?
      && VideoKey(m, path) == Some((TrimSuffix(path.name, Ext(path.name)), 1900))
      && r.state.videos[VideoIdOf(hash, m, path)].sortTitle == SortableTitle(TrimSuffix(path.name, Ext(path.name)))
      && r.state.series == st.series && r.state.seasons == st.seasons
  {
    var m := Read(Mp4.Extract(c));
    IngestFallbacks(m, path);
    IngestDescribesVideo(st, hash, path, size, m);
    ApplyWithoutSeries(st, PlanOf(hash, path, size, m));
  }

  /**
   * Every completed ingest appends exactly one rendition to its video, after the earlier ones, and
   * records the path under the rendition's ID and under the video's ID.
   */
  lemma IngestAppendsOneRendition(st: LibraryState, hash: string -> string, path: FilePath, size: int, m: Metadata)
    requires Ingest(st, hash, path, size, m).panic.None?
    ensures VideoKey(m, path).Some?
    ensures var id := VideoIdOf(hash, m, path);
      var r := Ingest(st, hash, path, size, m).state;
      && r.videos[id].renditions == (if id in st.videos then st.videos[id].renditions else []) + [RenditionOf(hash, path, size)]
      && r.renditionPath == st.renditionPath[hash(Render(path)) := Render(path)][id := Render(path)]
  {
    var p := PlanOf(hash, path, size, m);
    assert p.Store? && p.video == VideoPlanOf(hash, path, m);
    ApplyAppendsRendition(st, p);
  }

  /**
   * A file with a series name whose episode atom panics is filed and described but gets no
   * rendition and no series.
   */
  lemma IngestEpisodePanic(st: LibraryState, hash: string -> string, path: FilePath, size: int, m: Metadata)
    requires VideoKey(m, path).Some? && NonEmpty(m.tvShowName).Some? && Panicked(m.tvEpisode)
    ensures Ingest(st, hash, path, size, m) == Ingested(FileVideo(st, VideoPlanOf(hash, path, m)), Some(m.tvEpisode.error.reason))
  {
  }

  /** Without a series name no series or season is touched, and the episode link stays as it was. */
  lemma IngestMovie(st: LibraryState, hash: string -> string, path: FilePath, size: int, m: Metadata)
    requires VideoKey(m, path).Some? && NonEmpty(m.tvShowName).None?
    ensures var id := VideoIdOf(hash, m, path);
      var r := Ingest(st, hash, path, size, m);
      && r.panic.None?
      && r.state.series == st.series && r.state.seasons == st.seasons
      && r.state.videos[id].episode == if id in st.videos then st.videos[id].episode else None
  {
    var p := PlanOf(hash, path, size, m);
    assert p.video == VideoPlanOf(hash, path, m);
    ApplyWithoutSeries(st, p);
  }

  /**
   * With a series name: the series is found or created under the hash of its name, the season
   * under the hash of name and season number, the series' sort name is refreshed, and a video
   * is linked to an episode only once.
   */
  lemma IngestSeries(st: LibraryState, hash: string -> string, path: FilePath, size: int, m: Metadata)
    requires st.Valid() && VideoKey(m, path).Some? && NonEmpty(m.tvShowName).Some? && !Panicked(m.tvEpisode)
    ensures var id := VideoIdOf(hash, m, path);
      var r := Ingest(st, hash, path, size, m).state;
      var name := NonEmpty(m.tvShowName).value;
      var seriesId := hash(name);
      var seasonId := IdFromSeriesAndSeason(hash, name, SeasonNumberOf(m));
      && Ingest(st, hash, path, size, m).panic.None?
      && r.series == st.series[seriesId :=
           (if seriesId in st.series then st.series[seriesId] else Series(seriesId, name, ""))
             .(sortName := NonEmpty(m.tvSortShowName).GetOr(SortableTitle(name)))]
      && r.seasons == st.seasons[seasonId :=
           if seasonId in st.seasons then st.seasons[seasonId] else Season(seasonId, SeasonNumberOf(m), seriesId)]
      && (id in st.videos && st.videos[id].episode.Some? ==> r.videos[id].episode == st.videos[id].episode)
      && (id !in st.videos || st.videos[id].episode.None? ==>
            r.videos[id].episode == Some(Episode(seasonId, EpisodeNumberOf(m), id)))
  {
    var p := PlanOf(hash, path, size, m);
    assert p.video == VideoPlanOf(hash, path, m);
    assert p.episode == Some(EpisodePlanOf(hash, NonEmpty(m.tvShowName).value, m));
    ApplyLinksEpisode(st, p);
  }

  /** A survey keeps every entity under its own ID and every link pointing at a stored entity. */
  lemma {:induction false} SurveyPreservesValid(st: LibraryState, hash: string -> string, entries: seq<WalkEntry>)
    requires st.Valid()
    ensures SurveyOf(st, hash, entries).state.Valid()
    decreases |entries|
  {
    if entries != [] {
      var e := entries[0];
      if e.err.None? && Ext(e.path.name) != ".m4v" {
        SurveyPreservesValid(st, hash, entries[1..]);
      } else if e.err.None? && e.open.Success? {
        var m := Read(Mp4.Extract(e.open.value));
        IngestPreservesValid(st, hash, e.path, e.size, m);
        SurveyPreservesValid(Ingest(st, hash, e.path, e.size, m).state, hash, entries[1..]);
      }
    }
  }

  /** An unreadable season becomes 1, a decoded 0 stays 0; an unreadable episode becomes 0. */
  lemma SeasonAndEpisodeNumbers(a: Mp4.Atoms)
    ensures a.tvsn.None? ==> SeasonNumberOf(Read(Mp4.Surveyed(a))) == 1 && EpisodeNumberOf(Read(Mp4.Surveyed(a))) == 0
    ensures a.tvsn == Some([0, 0, 0, 0]) ==> SeasonNumberOf(Read(Mp4.Surveyed(a))) == 0
    ensures a.tvsn.Some? && |a.tvsn.value| < 4 ==> SeasonNumberOf(Read(Mp4.Surveyed(a))) == 0
  {
  }

  /** For a real container the series' sort name is always derived from its name. */
  lemma SeriesSortNameFromName(c: Mp4.Container, name: string)
    requires NonEmpty(Read(Mp4.Extract(c)).tvShowName) == Some(name)
    ensures NonEmpty(Read(Mp4.Extract(c)).tvSortShowName).GetOr(SortableTitle(name)) == SortableTitle(name)
  {
    Mp4.TVSortShowNameAlwaysMissing(c);
  }

  /**
   * Two files with the same title and year merge: the second adds no video and appends its
   * rendition after the first's, leaving the video's ID, title and year alone.
   */
  lemma SameTitleAndYearMerge(st: LibraryState, hash: string -> string,
                              p1: FilePath, s1: int, m1: Metadata,
                              p2: FilePath, s2: int, m2: Metadata)
    requires Ingest(st, hash, p1, s1, m1).panic.None?
    requires Ingest(Ingest(st, hash, p1, s1, m1).state, hash, p2, s2, m2).panic.None?
    requires VideoKey(m1, p1) == VideoKey(m2, p2)
    ensures VideoKey(m1, p1).Some?
    ensures var id := VideoIdOf(hash, m1, p1);
      var r1 := Ingest(st, hash, p1, s1, m1).state;
      var r2 := Ingest(r1, hash, p2, s2, m2).state;
      && r2.videos.Keys == r1.videos.Keys
      && r2.videos[id].renditions == r1.videos[id].renditions + [RenditionOf(hash, p2, s2)]
      && r2.videos[id].title == r1.videos[id].title && r2.videos[id].releaseYear == r1.videos[id].releaseYear
  {
    var r1 := Ingest(st, hash, p1, s1, m1).state;
    IngestAppendsOneRendition(st, hash, p1, s1, m1);
    IngestFilesByTitleAndYear(st, hash, p1, s1, m1);
    IngestAppendsOneRendition(r1, hash, p2, s2, m2);
    IngestFilesByTitleAndYear(r1, hash, p2, s2, m2);
  }

  /** With an injective hash, files with different titles or years never share a video. */
  lemma DistinctTitleOrYearDistinctVideos(hash: string -> string, p1: FilePath, m1: Metadata, p2: FilePath, m2: Metadata)
    requires Injective(hash)
    requires VideoKey(m1, p1).Some? && VideoKey(m2, p2).Some?
    ensures VideoIdOf(hash, m1, p1) == VideoIdOf(hash, m2, p2) <==> VideoKey(m1, p1) == VideoKey(m2, p2)
  {
    var (t1, y1) := VideoKey(m1, p1).value;
    var (t2, y2) := VideoKey(m2, p2).value;
    VideoIdIdentifiesTitleAndYear(hash, t1, y1, t2, y2);
  }
}
