/** Sort keys and comparators of graph/model/modelutil.go. */
module ModelUtil {
  import opened Text
  import opened Model
  import Sorting

  /** SortableTitle: drops a leading "The ", then "A ", then "An ", each at most once. */
  function SortableTitle(s: string): (r: string)
    ensures HasSuffix(s, r)
    ensures |s| - 9 <= |r| <= |s|
  {
    TrimPrefix(TrimPrefix(TrimPrefix(s, "The "), "A "), "An ")
  }

  /** A title that starts with none of the three articles is its own sort key. */
  lemma SortableTitleUnchanged(s: string)
    requires !HasPrefix(s, "The ") && !HasPrefix(s, "A ") && !HasPrefix(s, "An ")
    ensures SortableTitle(s) == s
  {
  }

  /**
   * The articles are stripped in the order The, A, An, and each only once: after "The " the
   * rest may still lose an "A " or an "An ", after "A " only an "An ", after "An " nothing; a
   * second "The " (or an article before "The ") is kept.
   */
  lemma SortableTitleOrder(t: string)
    ensures SortableTitle("The " + t) == TrimPrefix(TrimPrefix(t, "A "), "An ")
    ensures SortableTitle("A " + t) == TrimPrefix(t, "An ")
    ensures SortableTitle("An " + t) == t
    ensures HasPrefix(t, "The ") ==> SortableTitle("The " + t) == t
    ensures HasPrefix(t, "The ") ==> SortableTitle("A " + t) == t && SortableTitle("An " + t) == t
  {
    assert ("The " + t)[..4] == "The " && ("The " + t)[4..] == t;
    assert ("A " + t)[..2] == "A " && ("A " + t)[2..] == t;
    assert ("A " + t)[1] != "The "[1];
    assert ("An " + t)[..3] == "An " && ("An " + t)[3..] == t;
    assert ("An " + t)[0] != "The "[0] && ("An " + t)[1] != "A "[1];
    if HasPrefix(t, "The ") {
      assert t[1] == "The "[1];
      assert t[0] == "The "[0];
      assert !HasPrefix(t, "A ") && !HasPrefix(t, "An ");
    }
  }

  /** ByVideoTitle.Less */
  predicate VideoLess(a: Video, b: Video) {
    Less(a.sortTitle, b.sortTitle)
  }

  /** BySeriesName.Less */
  predicate SeriesLess(a: Series, b: Series) {
    Less(a.sortName, b.sortName)
  }

  /** The fields ByEpisode.Less compares: the series' sort name, the season number, the episode number. */
  datatype EpisodeKey = EpisodeKey(seriesSortName: string, season: int, episode: int)

  /** ByEpisode.Less: lexicographic on the key. */
  predicate EpisodeLess(a: EpisodeKey, b: EpisodeKey) {
    if a.seriesSortName != b.seriesSortName then Less(a.seriesSortName, b.seriesSortName)
    else if a.season != b.season then a.season < b.season
    else a.episode < b.episode
  }

  /** Videos are ordered by sort title; two are unordered exactly when their sort titles agree. */
  lemma VideoLessStrictWeakOrder(a: Video, b: Video, c: Video)
    ensures !VideoLess(a, a)
    ensures VideoLess(a, b) && VideoLess(b, c) ==> VideoLess(a, c)
    ensures !VideoLess(a, b) && !VideoLess(b, a) <==> a.sortTitle == b.sortTitle
  {
    LessIrreflexive(a.sortTitle);
    if VideoLess(a, b) && VideoLess(b, c) {
      LessTransitive(a.sortTitle, b.sortTitle, c.sortTitle);
    }
    LessTotal(a.sortTitle, b.sortTitle);
    if a.sortTitle == b.sortTitle {
      LessIrreflexive(b.sortTitle);
    }
  }

  /** Series are ordered by sort name; two are unordered exactly when their sort names agree. */
  lemma SeriesLessStrictWeakOrder(a: Series, b: Series, c: Series)
    ensures !SeriesLess(a, a)
    ensures SeriesLess(a, b) && SeriesLess(b, c) ==> SeriesLess(a, c)
    ensures !SeriesLess(a, b) && !SeriesLess(b, a) <==> a.sortName == b.sortName
  {
    LessIrreflexive(a.sortName);
    if SeriesLess(a, b) && SeriesLess(b, c) {
      LessTransitive(a.sortName, b.sortName, c.sortName);
    }
    LessTotal(a.sortName, b.sortName);
    if a.sortName == b.sortName {
      LessIrreflexive(b.sortName);
    }
  }

  /** The episode order is a strict total order on keys: unordered keys are equal. */
  lemma EpisodeLessStrictWeakOrder(a: EpisodeKey, b: EpisodeKey, c: EpisodeKey)
    ensures !EpisodeLess(a, a)
    ensures EpisodeLess(a, b) && EpisodeLess(b, c) ==> EpisodeLess(a, c)
    ensures !EpisodeLess(a, b) && !EpisodeLess(b, a) <==> a == b
  {
    LessIrreflexive(a.seriesSortName);
    if EpisodeLess(a, b) && EpisodeLess(b, c) {
      if a.seriesSortName != b.seriesSortName && b.seriesSortName != c.seriesSortName {
        LessTransitive(a.seriesSortName, b.seriesSortName, c.seriesSortName);
        if a.seriesSortName == c.seriesSortName {
          LessAsymmetric(a.seriesSortName, b.seriesSortName);
        }
      }
    }
    LessTotal(a.seriesSortName, b.seriesSortName);
    if a.seriesSortName != b.seriesSortName && Less(a.seriesSortName, b.seriesSortName) {
      LessAsymmetric(a.seriesSortName, b.seriesSortName);
    }
  }

  lemma VideoOrder()
    ensures Sorting.StrictOrder(VideoLess)
  {
    forall a, b, c {
      VideoLessStrictWeakOrder(a, b, c);
    }
  }

  lemma SeriesOrder()
    ensures Sorting.StrictOrder(SeriesLess)
  {
    forall a, b, c {
      SeriesLessStrictWeakOrder(a, b, c);
    }
  }

  /** The Swap of ByVideoTitle, BySeriesName and ByEpisode: exchanges two elements in place. */
  method Swap<T>(a: array<T>, i: int, j: int)
    requires 0 <= i < a.Length && 0 <= j < a.Length
    modifies a
    ensures a[i] == old(a[j]) && a[j] == old(a[i])
    ensures forall k :: 0 <= k < a.Length && k != i && k != j ==> a[k] == old(a[k])
    ensures multiset(a[..]) == multiset(old(a[..]))
  {
    a[i], a[j] := a[j], a[i];
  }
}
