/**
 * The three `episodes` functions of graph/resolver.go: every video that has an episode contributes
 * that episode, when it passes the filters. The library is only read.
 */
module Episodes {
  import opened Wrappers
  import opened Model
  import Catalog

  /** The three filters, each None when absent. */
  datatype EpisodeFilter = EpisodeFilter(seasonId: Option<string>, seriesId: Option<string>, seriesName: Option<string>)

  const NO_FILTER := EpisodeFilter(None, None, None)

  /** The episode's season and series can be followed from it. */
  predicate Linked(st: Catalog.LibraryState, e: Episode) {
    e.seasonId in st.seasons && st.seasons[e.seasonId].seriesId in st.series
  }

  /** The filters apply conjunctively; an absent one imposes nothing. */
  predicate Passes(st: Catalog.LibraryState, e: Episode, f: EpisodeFilter)
    requires Linked(st, e)
  {
    var season := st.seasons[e.seasonId];
    var series := st.series[season.seriesId];
    && (f.seasonId.Some? ==> season.id == f.seasonId.value)
    && (f.seriesId.Some? ==> series.id == f.seriesId.value)
    && (f.seriesName.Some? ==> series.name == f.seriesName.value)
  }

  /** The IDs of the videos among `ids` whose episode passes the filter. */
  function Contributing(st: Catalog.LibraryState, f: EpisodeFilter, ids: set<string>): set<string>
    requires st.Valid()
  {
    set id | id in ids && id in st.videos && st.videos[id].episode.Some? && Passes(st, st.videos[id].episode.value, f)
  }

  /** The episodes the video IDs in `ids` contribute. */
  function EpisodesOf(st: Catalog.LibraryState, ids: set<string>): set<Episode>
    requires forall id :: id in ids ==> id in st.videos && st.videos[id].episode.Some?
  {
    set id | id in ids :: st.videos[id].episode.value
  }

  /** All episodes of the library that pass the filter. */
  function Matching(st: Catalog.LibraryState, f: EpisodeFilter): set<Episode>
    requires st.Valid()
  {
    EpisodesOf(st, Contributing(st, f, st.videos.Keys))
  }

  /** Each contributing video gives its own episode, so there are as many episodes as videos. */
  lemma {:induction false} OneEpisodePerVideo(st: Catalog.LibraryState, ids: set<string>)
    requires st.Valid()
    requires forall id :: id in ids ==> id in st.videos && st.videos[id].episode.Some?
    ensures |EpisodesOf(st, ids)| == |ids|
    decreases |ids|
  {
    if ids != {} {
      var id :| id in ids;
      var rest := ids - {id};
      OneEpisodePerVideo(st, rest);
      assert EpisodesOf(st, ids) == EpisodesOf(st, rest) + {st.videos[id].episode.value};
      assert st.videos[id].episode.value !in EpisodesOf(st, rest);
    }
  }

  /** The episodes that pass are exactly those of videos that have one, whose season and series pass. */
  lemma MatchingMembers(st: Catalog.LibraryState, f: EpisodeFilter, e: Episode)
    requires st.Valid()
    ensures e in Matching(st, f) <==>
      e.videoId in st.videos && st.videos[e.videoId].episode == Some(e) && Passes(st, e, f)
  {
    if e in Matching(st, f) {
      var id :| id in Contributing(st, f, st.videos.Keys) && st.videos[id].episode.value == e;
    }
    if e.videoId in st.videos && st.videos[e.videoId].episode == Some(e) && Passes(st, e, f) {
      assert e.videoId in Contributing(st, f, st.videos.Keys);
    }
  }

  /** A filter is the conjunction of its three parts. */
  lemma FiltersConjunctive(st: Catalog.LibraryState, f: EpisodeFilter)
    requires st.Valid()
    ensures Matching(st, f) ==
      Matching(st, EpisodeFilter(f.seasonId, None, None)) * Matching(st, EpisodeFilter(None, f.seriesId, None))
      * Matching(st, EpisodeFilter(None, None, f.seriesName))
  {
    forall e
      ensures e in Matching(st, f) <==>
        e in Matching(st, EpisodeFilter(f.seasonId, None, None)) && e in Matching(st, EpisodeFilter(None, f.seriesId, None))
        && e in Matching(st, EpisodeFilter(None, None, f.seriesName))
    {
      MatchingMembers(st, f, e);
      MatchingMembers(st, EpisodeFilter(f.seasonId, None, None), e);
      MatchingMembers(st, EpisodeFilter(None, f.seriesId, None), e);
      MatchingMembers(st, EpisodeFilter(None, None, f.seriesName), e);
    }
  }

  /** `g` asks everything `f` asks, and maybe more. */
  predicate Refines(g: EpisodeFilter, f: EpisodeFilter) {
    && (f.seasonId.Some? ==> g.seasonId == f.seasonId)
    && (f.seriesId.Some? ==> g.seriesId == f.seriesId)
    && (f.seriesName.Some? ==> g.seriesName == f.seriesName)
  }

  /** Supplying an extra filter can only shrink the result; no filter keeps every episode. */
  lemma ExtraFilterShrinks(st: Catalog.LibraryState, f: EpisodeFilter, g: EpisodeFilter)
    requires st.Valid() && Refines(g, f)
    ensures Matching(st, g) <= Matching(st, f) <= Matching(st, NO_FILTER)
  {
    forall e | e in Matching(st, g)
      ensures e in Matching(st, f)
    {
      MatchingMembers(st, g, e);
      MatchingMembers(st, f, e);
    }
    forall e | e in Matching(st, f)
      ensures e in Matching(st, NO_FILTER)
    {
      MatchingMembers(st, f, e);
      MatchingMembers(st, NO_FILTER, e);
    }
  }

  /** Visiting one more video adds its episode when it passes, and nothing otherwise. */
  lemma VisitOne(st: Catalog.LibraryState, f: EpisodeFilter, visited: set<string>, id: string)
    requires st.Valid() && id in st.videos && id !in visited
    ensures var v := st.videos[id];
      var before := EpisodesOf(st, Contributing(st, f, visited));
      var after := EpisodesOf(st, Contributing(st, f, visited + {id}));
      if v.episode.Some? && Passes(st, v.episode.value, f)
      then multiset(after) == multiset(before) + multiset{v.episode.value}
      else after == before
  {
    var v := st.videos[id];
    if v.episode.Some? && Passes(st, v.episode.value, f) {
      var before := EpisodesOf(st, Contributing(st, f, visited));
      assert Contributing(st, f, visited + {id}) == Contributing(st, f, visited) + {id};
      assert v.episode.value !in before;
      assert EpisodesOf(st, Contributing(st, f, visited + {id})) == before + {v.episode.value};
    } else {
      assert Contributing(st, f, visited + {id}) == Contributing(st, f, visited);
    }
  }

  /** The loop the three functions share: over the videos in map order, appending what passes. */
  method Collect(lib: Catalog.Library, f: EpisodeFilter) returns (matches: seq<Episode>)
    requires lib.Valid()
    ensures multiset(matches) == multiset(Matching(lib.State(), f))
  {
    var st := lib.State();
    matches := [];
    var remaining := st.videos.Keys;
    ghost var visited: set<string> := {};
    while remaining != {}
      invariant remaining <= st.videos.Keys && visited == st.videos.Keys - remaining
      invariant multiset(matches) == multiset(EpisodesOf(st, Contributing(st, f, visited)))
      decreases |remaining|
    {
      var id :| id in remaining;
      VisitOne(st, f, visited, id);
      assert st.videos.Keys - (remaining - {id}) == visited + {id};
      var video := st.videos[id];
      if video.episode.Some? && Passes(st, video.episode.value, f) {
        matches := matches + [video.episode.value];
      }
      remaining := remaining - {id};
      visited := visited + {id};
    }
  }

  /** queryResolver.episodes: the season ID, series ID and series name filters. */
  function QueryFilter(series: Option<SeriesFilter>, season: Option<SeasonFilter>): EpisodeFilter {
    EpisodeFilter(
      if season.Some? then season.value.id else None,
      if series.Some? then series.value.id else None,
      if series.Some? then series.value.name else None)
  }

  /** seriesResolver.episodes: the episodes of the series `obj`, or all of them. */
  function SeriesFilterOf(obj: Option<Series>): EpisodeFilter {
    EpisodeFilter(None, if obj.Some? then Some(obj.value.id) else None, None)
  }

  /** seasonResolver.episodes: the episodes of the season `obj`, or all of them. */
  function SeasonFilterOf(obj: Option<Season>): EpisodeFilter {
    EpisodeFilter(if obj.Some? then Some(obj.value.id) else None, None, None)
  }

  /** queryResolver.episodes: the matching episodes, in map order (stated as a multiset). */
  method QueryMatches(lib: Catalog.Library, series: Option<SeriesFilter>, season: Option<SeasonFilter>) returns (matches: seq<Episode>)
    requires lib.Valid()
    ensures multiset(matches) == multiset(Matching(lib.State(), QueryFilter(series, season)))
  {
    matches := Collect(lib, QueryFilter(series, season));
  }

  /** seriesResolver.episodes: the matching episodes, in map order (stated as a multiset). */
  method SeriesMatches(lib: Catalog.Library, obj: Option<Series>) returns (matches: seq<Episode>)
    requires lib.Valid()
    ensures multiset(matches) == multiset(Matching(lib.State(), SeriesFilterOf(obj)))
  {
    matches := Collect(lib, SeriesFilterOf(obj));
  }

  /** seasonResolver.episodes: the matching episodes, in map order (stated as a multiset). */
  method SeasonMatches(lib: Catalog.Library, obj: Option<Season>) returns (matches: seq<Episode>)
    requires lib.Valid()
    ensures multiset(matches) == multiset(Matching(lib.State(), SeasonFilterOf(obj)))
  {
    matches := Collect(lib, SeasonFilterOf(obj));
  }
}
