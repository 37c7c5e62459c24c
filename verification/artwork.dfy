/**
 * Cover art (graph/model/artwork.go): the lookup of GetArtwork and the target size ResizeArtwork
 * computes. Decoding, resizing and re-encoding the image are not part of this model: the decoder's
 * outcome is an input, and the result names the size the image would be resized to.
 */
module Artwork {
  import opened Wrappers
  import opened Model
  import Mp4
  import Catalog
  import CatalogLemmas

  /**
   * GetArtwork: the video filed under `id`, the path last recorded under that video's ID, then
   * its cover art. `coverArt` stands for opening the file at a path and reading its covr atom.
   */
  function GetArtwork(st: Catalog.LibraryState, id: string, coverArt: string -> Result<Mp4.Bytes, string>): (r: Result<Mp4.Bytes, string>)
    ensures id !in st.videos ==> r == Failure("video not found")
    ensures r != Failure("video not found") ==> id in st.renditionPath && r == coverArt(st.renditionPath[id])
  {
    if id !in st.videos || id !in st.renditionPath then Failure("video not found") else coverArt(st.renditionPath[id])
  }

  /**
   * An ID that names no video, a rendition's ID among them, is reported before any file is
   * touched: the result does not depend on the files.
   */
  lemma GetArtworkUnknownId(st: Catalog.LibraryState, id: string,
                            coverArt1: string -> Result<Mp4.Bytes, string>, coverArt2: string -> Result<Mp4.Bytes, string>)
    requires id !in st.videos
    ensures GetArtwork(st, id, coverArt1) == GetArtwork(st, id, coverArt2) == Failure("video not found")
  {
  }

  /** After a file is ingested, its video's artwork is read from that file. */
  lemma ArtworkFromLastIngestedFile(st: Catalog.LibraryState, hash: string -> string, path: Catalog.FilePath, size: int,
                                    m: Catalog.Metadata, coverArt: string -> Result<Mp4.Bytes, string>)
    requires Catalog.Ingest(st, hash, path, size, m).panic.None?
    ensures Catalog.VideoKey(m, path).Some?
    ensures GetArtwork(Catalog.Ingest(st, hash, path, size, m).state, CatalogLemmas.VideoIdOf(hash, m, path), coverArt)
            == coverArt(Catalog.Render(path))
  {
    CatalogLemmas.IngestAppendsOneRendition(st, hash, path, size, m);
  }

  /** Go's `/` on int: the quotient truncated toward zero. */
  function GoDiv(a: int, b: int): (q: int)
    requires b != 0
    ensures a >= 0 && b > 0 ==> 0 <= q * b <= a < q * b + b
    ensures a < 0 && b > 0 ==> q * b + b > a && q * b >= a && q <= 0
  {
    var n := (if a < 0 then -a else a) / (if b < 0 then -b else b);
    if (a < 0) == (b < 0) then n else -n
  }

  /** What ResizeArtwork does: return the artwork as it is, resize it, or fail. */
  datatype Resizing =
    | Original                          // the input bytes, not decoded
    | Target(width: int, height: int)   // decoded, to be resized to width x height and re-encoded
    | DecodeFailed(err: string)
    | Panic(reason: string)

  /**
   * ResizeArtwork's decisions, given the geometry argument and what image.Decode gives: the
   * image's width and height, or its error.
   */
  function ResizeArtwork(geometry: Option<GeometryFilter>, decoded: Result<(int, int), string>): (r: Resizing)
    ensures r.DecodeFailed? ==> decoded.Failure? && r.err == decoded.error
    ensures r.Panic? ==> decoded.Success? && (decoded.value.0 == 0 || decoded.value.1 == 0)
    ensures r.Target? ==> decoded.Success? && geometry.Some?
    ensures r.Target? && geometry.value.width.Some? ==>
      r.width == if geometry.value.width.value < decoded.value.0 then geometry.value.width.value else decoded.value.0
    ensures r.Target? && geometry.value.height.Some? ==>
      r.height == if geometry.value.height.value < decoded.value.1 then geometry.value.height.value else decoded.value.1
  {
    if geometry.None? || (geometry.value.width.None? && geometry.value.height.None?) then Original
    else if decoded.Failure? then DecodeFailed(decoded.error)
    else
      var (x, y) := decoded.value;
      var g := geometry.value;
      if g.width.None? then
        var height := if g.height.value > y then y else g.height.value;
        if y == 0 then Panic("integer divide by zero") else Target(GoDiv(height * x, y), height)
      else if g.height.None? then
        var width := if g.width.value > x then x else g.width.value;
        if x == 0 then Panic("integer divide by zero") else Target(width, GoDiv(width * y, x))
      else
        Target(if g.width.value > x then x else g.width.value, if g.height.value > y then y else g.height.value)
  }

  /** Without a width and a height the artwork is returned untouched, whatever the image is. */
  lemma NoGeometryNoDecode(geometry: Option<GeometryFilter>, decoded: Result<(int, int), string>)
    requires geometry.None? || geometry.value == GeometryFilter(None, None)
    ensures ResizeArtwork(geometry, decoded) == Original
  {
  }

  /** A side clamped to `b` and scaled by a / b, rounded down, stays within 0 and `a`. */
  lemma ScaledSide(s: int, a: int, b: int)
    requires 0 <= s <= b && a > 0 && b > 0
    ensures 0 <= GoDiv(s * a, b) <= a
    ensures GoDiv(s * a, b) * b <= s * a < GoDiv(s * a, b) * b + b
  {
    var q := GoDiv(s * a, b);
    assert (b - s) * a >= 0;
    assert s * a <= b * a;
  }

  /** For non-negative requests and a non-empty image, the target fits inside the image. */
  lemma TargetWithinImage(g: GeometryFilter, x: int, y: int)
    requires x > 0 && y > 0
    requires g.width.Some? || g.height.Some?
    requires g.width.Some? ==> g.width.value >= 0
    requires g.height.Some? ==> g.height.value >= 0
    ensures ResizeArtwork(Some(g), Success((x, y))).Target?
    ensures var t := ResizeArtwork(Some(g), Success((x, y)));
      0 <= t.width <= x && 0 <= t.height <= y
  {
    if g.width.None? {
      ScaledSide(if g.height.value > y then y else g.height.value, x, y);
    } else if g.height.None? {
      ScaledSide(if g.width.value > x then x else g.width.value, y, x);
    }
  }

  /**
   * With one side given, that side is clamped to the image and the other follows the image's
   * aspect ratio, rounded down.
   */
  lemma OneSideKeepsAspect(g: GeometryFilter, x: int, y: int)
    requires x > 0 && y > 0
    requires g.width.Some? != g.height.Some?
    requires g.width.Some? ==> g.width.value >= 0
    requires g.height.Some? ==> g.height.value >= 0
    ensures var t := ResizeArtwork(Some(g), Success((x, y)));
      && t.Target?
      && (g.height.Some? ==> t.height == (if g.height.value < y then g.height.value else y)
                             && t.width * y <= t.height * x < t.width * y + y)
      && (g.width.Some? ==> t.width == (if g.width.value < x then g.width.value else x)
                            && t.height * x <= t.width * y < t.height * x + x)
  {
    if g.width.None? {
      ScaledSide(if g.height.value > y then y else g.height.value, x, y);
    } else {
      ScaledSide(if g.width.value > x then x else g.width.value, y, x);
    }
  }

  /** With both sides given, each is clamped on its own and the aspect ratio is not kept. */
  lemma BothSidesClampedIndependently(w: int, h: int, x: int, y: int)
    ensures ResizeArtwork(Some(GeometryFilter(Some(w), Some(h))), Success((x, y)))
            == Target(if w < x then w else x, if h < y then h else y)
    ensures ResizeArtwork(Some(GeometryFilter(Some(50), Some(10))), Success((100, 100))) == Target(50, 10)
  {
  }

  /** An image with no height (or width) panics when only the other side is given. */
  lemma EmptyImagePanics(w: int, h: int, x: int)
    ensures ResizeArtwork(Some(GeometryFilter(None, Some(h))), Success((x, 0))) == Panic("integer divide by zero")
    ensures ResizeArtwork(Some(GeometryFilter(Some(w), None)), Success((0, x))) == Panic("integer divide by zero")
  {
  }

  /**
   * A negative request is not rejected; the other side is then rounded toward zero, as Go
   * divides (-3 / 2 is -1 in Go, where a floor would give -2).
   */
  lemma NegativeRequestRoundsTowardZero(h: int, x: int, y: int)
    requires h < 0 && x > 0 && y > 0
    ensures var t := ResizeArtwork(Some(GeometryFilter(None, Some(h))), Success((x, y)));
      && t == Target(GoDiv(h * x, y), h)
      && t.width <= 0 && t.width * y >= h * x && t.width * y < h * x + y
    ensures ResizeArtwork(Some(GeometryFilter(None, Some(-1))), Success((3, 2))) == Target(-1, -1)
  {
    assert h * x < 0;
  }
}
