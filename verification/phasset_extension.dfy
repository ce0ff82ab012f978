/**
 * `PHAsset.fetchVideosFor(date:duration:)`: the playable assets of one day,
 * a video or a live photo in portrait, in the order the library enumerates
 * them.
 *
 * Start and end of the day come from `Calendar.current` and are parameters;
 * the end is absent when the calendar cannot add one day minus one second.
 */
module PHAssetExtension {
  import opened Wrappers
  import opened IosModel
  import Seqs

  /** The day's window: creation date strictly after its start and strictly before its end. */
  predicate WithinDay(asset: Asset, beginningOfDay: real, endOfDay: real) {
    asset.creationDate.Some? && beginningOfDay < asset.creationDate.value < endOfDay
  }

  /** A video, or an image with the photoLive subtype. */
  predicate Playable(asset: Asset) {
    asset.mediaType == VideoAsset || (asset.mediaType == ImageAsset && asset.photoLive)
  }

  /** Taller than wide; square and landscape assets are dropped. */
  predicate Portrait(asset: Asset) {
    asset.pixelHeight > asset.pixelWidth
  }

  predicate Kept(asset: Asset, beginningOfDay: real, endOfDay: real) {
    WithinDay(asset, beginningOfDay, endOfDay) && Playable(asset) && Portrait(asset)
  }

  /** The assets of `library` within the day that are playable and portrait. */
  function FetchVideosFor(library: seq<Asset>, beginningOfDay: real, endOfDay: Option<real>): (r: seq<Asset>)
    ensures endOfDay.None? ==> r == []
    ensures forall i :: 0 <= i < |r| ==> r[i] in library && Kept(r[i], beginningOfDay, endOfDay.value)
    ensures endOfDay.Some? ==>
      forall i :: 0 <= i < |library| && Kept(library[i], beginningOfDay, endOfDay.value) ==> library[i] in r
  {
    match endOfDay
    case None => []
    case Some(end) => Seqs.Filter(library, (a: Asset) => Kept(a, beginningOfDay, end))
  }

  /** The enumeration order is kept: the assets of a split library are those of each part, in turn. */
  lemma FetchVideosForAppend(s: seq<Asset>, t: seq<Asset>, beginningOfDay: real, endOfDay: Option<real>)
    ensures FetchVideosFor(s + t, beginningOfDay, endOfDay)
         == FetchVideosFor(s, beginningOfDay, endOfDay) + FetchVideosFor(t, beginningOfDay, endOfDay)
  {
    if endOfDay.Some? {
      Seqs.FilterAppend(s, t, (a: Asset) => Kept(a, beginningOfDay, endOfDay.value));
    }
  }
}
