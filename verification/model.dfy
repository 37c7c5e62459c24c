/**
 * The entities of the catalog (package graph/model). Go links entities by pointer; here every
 * link is the ID of the entity pointed to, looked up in the library's maps.
 */
module Model {
  import opened Wrappers

  datatype VideoCodec = H264 | H265

  datatype TranscodeBudget = VeryFast | Fast | Hq | SuperHq

  /** How a rendition was encoded, as guessed from its directory names. */
  datatype Quality = Quality(codec: VideoCodec, resolution: string, budget: Option<TranscodeBudget>)

  /** One encoded file of a video: the hash of its path, its quality and its size in bytes. */
  datatype Rendition = Rendition(id: string, quality: Option<Quality>, size: int)

  /** The episode annotation of a video: its season (by ID), its number and the video (by ID). */
  datatype Episode = Episode(seasonId: string, number: int, videoId: string)

  /** A video; a nil Renditions list is the empty sequence. */
  datatype Video = Video(
    id: string, title: string, sortTitle: string, releaseYear: int,
    genre: Option<string>, description: Option<string>,
    renditions: seq<Rendition>, episode: Option<Episode>)

  datatype Series = Series(id: string, name: string, sortName: string)

  /** A season: its number and its series (by ID). */
  datatype Season = Season(id: string, number: int, seriesId: string)

  // The query arguments; a nil pointer is None

  datatype Paginate = Paginate(after: Option<string>, first: Option<int>)

  datatype SeriesFilter = SeriesFilter(id: Option<string>, name: Option<string>)

  datatype SeasonFilter = SeasonFilter(id: Option<string>)

  datatype QualityFilter = QualityFilter(codec: Option<VideoCodec>, resolution: Option<string>)

  datatype GeometryFilter = GeometryFilter(width: Option<int>, height: Option<int>)
}
