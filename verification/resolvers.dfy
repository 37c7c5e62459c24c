/**
 * The query side of graph/schema.resolvers.go: lookups, filters, the sort orders, the "after"
 * cursor and the "first" limit. Go's map iteration order is unspecified, so a result gathered
 * from a map is specified by its multiset of elements; a sorted result by its multiset and its
 * order. A panic is a Failure carrying Go's runtime message.
 */
module Resolvers {
  import opened Wrappers
  import opened Model
  import opened ModelUtil
  import opened Sorting
  import Catalog
  import Episodes

  // Gathering the values of a map

  /** The keys among `ids` whose value passes `keep`. */
  function Kept<V>(m: map<string, V>, keep: V -> bool, ids: set<string>): set<string> {
    set id | id in ids && id in m && keep(m[id])
  }

  /** The values stored under the keys in `ids`. */
  function ValuesAt<V(==)>(m: map<string, V>, ids: set<string>): set<V>
    requires ids <= m.Keys
  {
    set id | id in ids :: m[id]
  }

  /** What the loops over a map gather: the stored values that pass `keep`. */
  function Gathered<V(==)>(m: map<string, V>, keep: V -> bool): set<V> {
    ValuesAt(m, Kept(m, keep, m.Keys))
  }

  lemma GatheredMembers<V>(m: map<string, V>, keep: V -> bool, v: V)
    ensures v in Gathered(m, keep) <==> v in m.Values && keep(v)
  {
    if v in m.Values && keep(v) {
      var id :| id in m && m[id] == v;
      assert id in Kept(m, keep, m.Keys);
    }
  }

  /** Visiting one more key adds its value when it passes; values are distinct when keys are IDs. */
  lemma GatherOne<V>(m: map<string, V>, key: V -> string, keep: V -> bool, visited: set<string>, id: string)
    requires forall k :: k in m ==> key(m[k]) == k
    requires id in m && id !in visited
    ensures var before := ValuesAt(m, Kept(m, keep, visited));
      var after := ValuesAt(m, Kept(m, keep, visited + {id}));
      if keep(m[id]) then multiset(after) == multiset(before) + multiset{m[id]} else after == before
  {
    if keep(m[id]) {
      var before := ValuesAt(m, Kept(m, keep, visited));
      assert Kept(m, keep, visited + {id}) == Kept(m, keep, visited) + {id};
      assert m[id] !in before;
      assert ValuesAt(m, Kept(m, keep, visited + {id})) == before + {m[id]};
    } else {
      assert Kept(m, keep, visited + {id}) == Kept(m, keep, visited);
    }
  }

  /** `for _, v := range m { if keep(v) { matches = append(matches, v) } }`, for a map keyed by ID. */
  method Gather<V>(m: map<string, V>, key: V -> string, keep: V -> bool) returns (matches: seq<V>)
    requires forall k :: k in m ==> key(m[k]) == k
    ensures multiset(matches) == multiset(Gathered(m, keep))
  {
    matches := [];
    var remaining := m.Keys;
    ghost var visited: set<string> := {};
    while remaining != {}
      invariant remaining <= m.Keys && visited == m.Keys - remaining
      invariant multiset(matches) == multiset(ValuesAt(m, Kept(m, keep, visited)))
      decreases |remaining|
    {
      var id :| id in remaining;
      GatherOne(m, key, keep, visited, id);
      assert m.Keys - (remaining - {id}) == visited + {id};
      if keep(m[id]) {
        matches := matches + [m[id]];
      }
      remaining := remaining - {id};
      visited := visited + {id};
    }
  }

  // Pagination

  /** The index of the first element whose ID is `cursor`, or the length when there is none. */
  function CursorIndex<T>(s: seq<T>, id: T -> string, cursor: string): (i: nat)
    ensures i <= |s|
    ensures i < |s| ==> id(s[i]) == cursor
    ensures forall j :: 0 <= j < i ==> id(s[j]) != cursor
    decreases |s|
  {
    if s == [] then 0
    else if id(s[0]) == cursor then 0
    else
      var i := CursorIndex(s[1..], id, cursor);
      assert forall j :: 1 <= j < i + 1 ==> s[j] == s[1..][j - 1];
      i + 1
  }

  /** Everything after the first element with ID `cursor`; everything when there is none. */
  function After<T>(s: seq<T>, id: T -> string, cursor: string): seq<T> {
    var i := CursorIndex(s, id, cursor);
    if i < |s| then s[i + 1..] else s
  }

  /** The "first" limit: a prefix of n elements when the list is longer; a negative n panics. */
  function First<T>(s: seq<T>, n: int): Result<seq<T>, string> {
    if |s| > n then
      if n < 0 then Failure("slice bounds out of range") else Success(s[..n])
    else Success(s)
  }

  /** The cursor, then the limit, each only when given. */
  function Page<T>(s: seq<T>, id: T -> string, paginate: Option<Paginate>): (r: Result<seq<T>, string>)
    ensures r.Success? ==> |r.value| <= |s|
    ensures r.Failure? ==> r.error == "slice bounds out of range"
  {
    var rest := if paginate.Some? && paginate.value.after.Some? then After(s, id, paginate.value.after.value) else s;
    if paginate.Some? && paginate.value.first.Some? then First(rest, paginate.value.first.value) else Success(rest)
  }

  /** A cursor equal to the ID at index i yields what follows i; an unknown cursor keeps everything. */
  lemma AfterCursor<T>(s: seq<T>, id: T -> string, cursor: string, i: int)
    requires 0 <= i < |s| && id(s[i]) == cursor && forall j :: 0 <= j < i ==> id(s[j]) != cursor
    ensures After(s, id, cursor) == s[i + 1..]
  {
    var k := CursorIndex(s, id, cursor);
    if k < i {
      assert id(s[k]) == cursor;
    }
  }

  lemma AfterUnknownCursor<T>(s: seq<T>, id: T -> string, cursor: string)
    requires forall j :: 0 <= j < |s| ==> id(s[j]) != cursor
    ensures After(s, id, cursor) == s
  {
  }

  /** A non-negative limit n keeps the first min(len, n) elements; a negative one always panics. */
  lemma FirstTruncates<T>(s: seq<T>, n: int)
    ensures First(s, n).Failure? <==> n < 0
    ensures n >= 0 ==> |First(s, n).value| == (if |s| < n then |s| else n)
    ensures n >= 0 ==> First(s, n).value == s[..|First(s, n).value|]
  {
  }

  /** A "first" limit that is given and negative: the slice expression panics. */
  predicate NegativeFirst(paginate: Option<Paginate>) {
    paginate.Some? && paginate.value.first.Some? && paginate.value.first.value < 0
  }

  /**
   * Pagination panics exactly on a negative limit; otherwise it keeps a contiguous run of the
   * list, and without arguments the whole list.
   */
  lemma PageIsSlice<T>(s: seq<T>, id: T -> string, paginate: Option<Paginate>)
    ensures Page(s, id, paginate).Failure? <==> NegativeFirst(paginate)
    ensures Page(s, id, paginate).Success? ==>
      exists i, j :: 0 <= i <= j <= |s| && Page(s, id, paginate).value == s[i..j]
    ensures paginate.None? ==> Page(s, id, paginate) == Success(s)
  {
    var start := 0;
    if paginate.Some? && paginate.value.after.Some? {
      var k := CursorIndex(s, id, paginate.value.after.value);
      start := if k < |s| then k + 1 else 0;
    }
    var rest := s[start..];
    assert s[start..|s|] == rest;
    if paginate.Some? && paginate.value.first.Some? {
      var n := paginate.value.first.value;
      FirstTruncates(rest, n);
      if n >= 0 && |rest| > n {
        assert rest[..n] == s[start..start + n];
      }
    }
  }

  /** A contiguous run of a sorted list is sorted, and holds no element the list does not. */
  lemma SliceOfSorted<T>(s: seq<T>, i: int, j: int, less: (T, T) -> bool)
    requires 0 <= i <= j <= |s| && Sorted(s, less)
    ensures Sorted(s[i..j], less)
    ensures multiset(s[i..j]) <= multiset(s)
  {
    assert s == s[..i] + s[i..j] + s[j..];
  }

  /** The pagination code after sort.Sort: the cursor loop, then the limit. */
  method Paginated<T>(matches: seq<T>, id: T -> string, paginate: Option<Paginate>) returns (r: Result<seq<T>, string>)
    ensures r == Page(matches, id, paginate)
  {
    var rest := matches;
    if paginate.Some? && paginate.value.after.Some? {
      var cursor := paginate.value.after.value;
      var i := 0;
      while i < |matches| && id(matches[i]) != cursor
        invariant 0 <= i <= |matches|
        invariant forall j :: 0 <= j < i ==> id(matches[j]) != cursor
      {
        i := i + 1;
      }
      if i < |matches| {
        AfterCursor(matches, id, cursor, i);
        rest := matches[i + 1..];
      }
    }
    if paginate.Some? && paginate.value.first.Some? && |rest| > paginate.value.first.value {
      if paginate.value.first.value < 0 {
        return Failure("slice bounds out of range");
      }
      rest := rest[..paginate.value.first.value];
    }
    r := Success(rest);
  }

  // queryResolver

  /** queryResolver.Video */
  function QueryVideo(st: Catalog.LibraryState, id: string): (r: Result<Video, string>)
    ensures r.Success? <==> id in st.videos
    ensures r.Success? ==> r.value == st.videos[id]
    ensures r.Failure? ==> r.error == "video not found"
  {
    if id in st.videos then Success(st.videos[id]) else Failure("video not found")
  }

  function VideoId(v: Video): string {
    v.id
  }

  /** The title filter of queryResolver.Videos: the exact title, or every video. */
  function TitleIs(title: Option<string>): Video -> bool {
    (v: Video) => title.None? || v.title == title.value
  }

  /** The videos Videos gathers: with a title, exactly the stored videos with that title. */
  lemma TitledVideos(st: Catalog.LibraryState, title: Option<string>, v: Video)
    ensures v in Gathered(st.videos, TitleIs(title)) <==> v in st.videos.Values && (title.Some? ==> v.title == title.value)
  {
    GatheredMembers(st.videos, TitleIs(title), v);
  }

  /**
   * queryResolver.Videos: the videos with the title, sorted by sort title, then paginated.
   * `sorted` is the list before pagination.
   */
  method QueryVideos(lib: Catalog.Library, paginate: Option<Paginate>, title: Option<string>)
    returns (r: Result<seq<Video>, string>, ghost sorted: seq<Video>)
    requires lib.Valid()
    ensures multiset(sorted) == multiset(Gathered(lib.State().videos, TitleIs(title)))
    ensures Sorted(sorted, VideoLess)
    ensures r == Page(sorted, VideoId, paginate)
    ensures r.Failure? <==> NegativeFirst(paginate)
    ensures r.Success? ==> Sorted(r.value, VideoLess)
    ensures r.Success? ==> multiset(r.value) <= multiset(Gathered(lib.State().videos, TitleIs(title)))
    ensures paginate.None? ==> r.Success? && multiset(r.value) == multiset(Gathered(lib.State().videos, TitleIs(title)))
  {
    var matches := Gather(lib.videos, VideoId, TitleIs(title));
    VideoOrder();
    var s := Sort(matches, VideoLess);
    sorted := s;
    r := Paginated(s, VideoId, paginate);
    PageIsSlice(s, VideoId, paginate);
    if r.Success? {
      var i, j :| 0 <= i <= j <= |s| && r.value == s[i..j];
      SliceOfSorted(s, i, j, VideoLess);
    }
  }

  function SeriesId(s: Series): string {
    s.id
  }

  /** queryResolver.Series: every series, sorted by sort name, then paginated. */
  method QuerySeries(lib: Catalog.Library, paginate: Option<Paginate>)
    returns (r: Result<seq<Series>, string>, ghost sorted: seq<Series>)
    requires lib.Valid()
    ensures multiset(sorted) == multiset(lib.State().series.Values)
    ensures Sorted(sorted, SeriesLess)
    ensures r == Page(sorted, SeriesId, paginate)
    ensures r.Failure? <==> NegativeFirst(paginate)
    ensures r.Success? ==> Sorted(r.value, SeriesLess)
    ensures r.Success? ==> multiset(r.value) <= multiset(lib.State().series.Values)
    ensures paginate.None? ==> r.Success? && multiset(r.value) == multiset(lib.State().series.Values)
  {
    var matches := Gather(lib.series, SeriesId, _ => true);
    forall s | s in lib.series.Values
      ensures s in Gathered(lib.series, _ => true)
    {
      GatheredMembers(lib.series, _ => true, s);
    }
    SeriesOrder();
    var sortedSeries := Sort(matches, SeriesLess);
    sorted := sortedSeries;
    r := Paginated(sortedSeries, SeriesId, paginate);
    PageIsSlice(sortedSeries, SeriesId, paginate);
    if r.Success? {
      var i, j :| 0 <= i <= j <= |sortedSeries| && r.value == sortedSeries[i..j];
      SliceOfSorted(sortedSeries, i, j, SeriesLess);
    }
  }

  function SeasonId(s: Season): string {
    s.id
  }

  function InSeries(seriesId: Option<string>): Season -> bool {
    (s: Season) => seriesId.None? || s.seriesId == seriesId.value
  }

  /**
   * queryResolver.Seasons: the seasons of the filter's series, or all of them. A filter without an
   * ID is dereferenced on the first season, so it panics unless there are no seasons. The
   * BySeason order is not part of this model, so the result is specified as a multiset.
   */
  method QuerySeasons(lib: Catalog.Library, series: Option<SeriesFilter>) returns (r: Result<seq<Season>, string>)
    requires lib.Valid()
    ensures r.Failure? <==> series.Some? && series.value.id.None? && |lib.State().seasons| > 0
    ensures r.Success? ==>
      multiset(r.value) == multiset(Gathered(lib.State().seasons, InSeries(if series.Some? then series.value.id else None)))
  {
    if series.Some? && series.value.id.None? && |lib.seasons| > 0 {
      return Failure("invalid memory address or nil pointer dereference");
    }
    var matches := Gather(lib.seasons, SeasonId, InSeries(if series.Some? then series.value.id else None));
    r := Success(matches);
  }

  /** seriesResolver.Seasons: the seasons whose series is `obj`, or all of them. */
  method SeriesSeasons(lib: Catalog.Library, obj: Option<Series>) returns (matches: seq<Season>)
    requires lib.Valid()
    ensures multiset(matches) == multiset(Gathered(lib.State().seasons, InSeries(if obj.Some? then Some(obj.value.id) else None)))
  {
    matches := Gather(lib.seasons, SeasonId, InSeries(if obj.Some? then Some(obj.value.id) else None));
  }

  /** The seasons a series filter keeps: those whose series has the filter's ID. */
  lemma SeasonsOfSeries(st: Catalog.LibraryState, seriesId: string, s: Season)
    ensures s in Gathered(st.seasons, InSeries(Some(seriesId))) <==> s in st.seasons.Values && s.seriesId == seriesId
  {
    GatheredMembers(st.seasons, InSeries(Some(seriesId)), s);
  }

  // Episodes in ByEpisode order

  /**
   * The key ByEpisode compares for an episode: its series' sort name, its season number and its
   * number. Every episode of a valid library is linked; an unlinked one sorts under an empty name.
   */
  function KeyOf(st: Catalog.LibraryState, e: Episode): EpisodeKey {
    if Episodes.Linked(st, e) then
      EpisodeKey(st.series[st.seasons[e.seasonId].seriesId].sortName, st.seasons[e.seasonId].number, e.number)
    else EpisodeKey("", 0, e.number)
  }

  function ByEpisode(st: Catalog.LibraryState): (Episode, Episode) -> bool {
    (a: Episode, b: Episode) => EpisodeLess(KeyOf(st, a), KeyOf(st, b))
  }

  lemma EpisodeOrder(st: Catalog.LibraryState)
    ensures StrictOrder(ByEpisode(st))
  {
    forall a: Episode, b: Episode, c: Episode {
      EpisodeLessStrictWeakOrder(KeyOf(st, a), KeyOf(st, b), KeyOf(st, c));
    }
  }

  /** The Episodes resolvers: the episodes passing the filter, in ByEpisode order. */
  method SortedEpisodes(lib: Catalog.Library, f: Episodes.EpisodeFilter) returns (r: seq<Episode>)
    requires lib.Valid()
    ensures multiset(r) == multiset(Episodes.Matching(lib.State(), f))
    ensures Sorted(r, ByEpisode(lib.State()))
  {
    var matches := Episodes.Collect(lib, f);
    EpisodeOrder(lib.State());
    r := Sort(matches, ByEpisode(lib.State()));
  }

  /** The EpisodeCount resolvers: how many episodes pass the filter. */
  method CountEpisodes(lib: Catalog.Library, f: Episodes.EpisodeFilter) returns (n: int)
    requires lib.Valid()
    ensures n == |Episodes.Matching(lib.State(), f)|
  {
    var matches := Episodes.Collect(lib, f);
    n := |matches|;
    assert |multiset(matches)| == n;
  }

  /** queryResolver.Episodes */
  method QueryEpisodes(lib: Catalog.Library, series: Option<SeriesFilter>, season: Option<SeasonFilter>) returns (r: seq<Episode>)
    requires lib.Valid()
    ensures multiset(r) == multiset(Episodes.Matching(lib.State(), Episodes.QueryFilter(series, season)))
    ensures Sorted(r, ByEpisode(lib.State()))
  {
    r := SortedEpisodes(lib, Episodes.QueryFilter(series, season));
  }

  /** queryResolver.EpisodeCount: the length of what Episodes returns for the same filters. */
  method QueryEpisodeCount(lib: Catalog.Library, series: Option<SeriesFilter>, season: Option<SeasonFilter>) returns (n: int)
    requires lib.Valid()
    ensures n == |Episodes.Matching(lib.State(), Episodes.QueryFilter(series, season))|
  {
    n := CountEpisodes(lib, Episodes.QueryFilter(series, season));
  }

  /** seasonResolver.Episodes */
  method SeasonEpisodes(lib: Catalog.Library, obj: Option<Season>) returns (r: seq<Episode>)
    requires lib.Valid()
    ensures multiset(r) == multiset(Episodes.Matching(lib.State(), Episodes.SeasonFilterOf(obj)))
    ensures Sorted(r, ByEpisode(lib.State()))
  {
    r := SortedEpisodes(lib, Episodes.SeasonFilterOf(obj));
  }

  /** seasonResolver.EpisodeCount */
  method SeasonEpisodeCount(lib: Catalog.Library, obj: Option<Season>) returns (n: int)
    requires lib.Valid()
    ensures n == |Episodes.Matching(lib.State(), Episodes.SeasonFilterOf(obj))|
  {
    n := CountEpisodes(lib, Episodes.SeasonFilterOf(obj));
  }

  /** seriesResolver.Episodes */
  method SeriesEpisodes(lib: Catalog.Library, obj: Option<Series>) returns (r: seq<Episode>)
    requires lib.Valid()
    ensures multiset(r) == multiset(Episodes.Matching(lib.State(), Episodes.SeriesFilterOf(obj)))
    ensures Sorted(r, ByEpisode(lib.State()))
  {
    r := SortedEpisodes(lib, Episodes.SeriesFilterOf(obj));
  }

  /** seriesResolver.EpisodeCount */
  method SeriesEpisodeCount(lib: Catalog.Library, obj: Option<Series>) returns (n: int)
    requires lib.Valid()
    ensures n == |Episodes.Matching(lib.State(), Episodes.SeriesFilterOf(obj))|
  {
    n := CountEpisodes(lib, Episodes.SeriesFilterOf(obj));
  }

  /** A list with the same elements as a set has the set's size: a count is the list's length. */
  lemma CountIsLength<T>(s: seq<T>, m: set<T>)
    requires multiset(s) == multiset(m)
    ensures |s| == |m|
  {
    assert |multiset(s)| == |s|;
  }

  // renditionsResolver

  /** A rendition passes when the filter's codec and resolution match wherever they are given. */
  predicate Passes(r: Rendition, quality: Option<QualityFilter>) {
    || quality.None?
    || r.quality.None?
    || (&& (quality.value.codec.None? || quality.value.codec.value == r.quality.value.codec)
        && (quality.value.resolution.None? || quality.value.resolution.value == r.quality.value.resolution))
  }

  /** renditionsResolver.Rendition: the first rendition, in list order, that passes; None if none does. */
  method Rendition(all: seq<Rendition>, quality: Option<QualityFilter>) returns (r: Option<Rendition>)
    ensures r.None? <==> forall i :: 0 <= i < |all| ==> !Passes(all[i], quality)
    ensures r.Some? ==> exists i :: 0 <= i < |all| && all[i] == r.value && Passes(all[i], quality)
                                    && forall j :: 0 <= j < i ==> !Passes(all[j], quality)
  {
    var i := 0;
    while i < |all|
      invariant 0 <= i <= |all|
      invariant forall j :: 0 <= j < i ==> !Passes(all[j], quality)
    {
      var rendition := all[i];
      if quality.Some? && rendition.quality.Some? {
        if quality.value.codec.Some? && quality.value.codec.value != rendition.quality.value.codec {
          i := i + 1;
          continue;
        }
        if quality.value.resolution.Some? && quality.value.resolution.value != rendition.quality.value.resolution {
          i := i + 1;
          continue;
        }
      }
      return Some(rendition);
    }
    return None;
  }

  /** Without a filter every rendition passes, so the first one is chosen. */
  lemma NoFilterPassesAll(r: Rendition, q: QualityFilter)
    ensures Passes(r, None)
    ensures r.quality.None? ==> Passes(r, Some(q))
  {
  }
}
