/**
 * The iOS `MediaFetcher`: asset lookup by identifier, the date-range
 * query, and the `MediaAsset` summaries of images and videos.
 */
module MediaFetcher {
  import opened Wrappers
  import opened IosModel
  import Seqs

  /** `getAsset(with:)`: the enumeration overwrites, so the last asset with the identifier wins. */
  function GetAsset(library: seq<Asset>, fileId: string): (r: Option<Asset>)
    ensures r.None? <==> forall i :: 0 <= i < |library| ==> library[i].localIdentifier != fileId
    ensures r.Some? ==>
      exists i :: 0 <= i < |library| && library[i] == r.value && r.value.localIdentifier == fileId
                  && forall j :: i < j < |library| ==> library[j].localIdentifier != fileId
  {
    match Seqs.LastIndex(library, (a: Asset) => a.localIdentifier == fileId)
    case None => None
    case Some(i) => Some(library[i])
  }

  /**
   * The predicate of `getAssetsWithDateRange`: each present bound is strict
   * (an asset without a creation date fails it), and the types are OR-ed,
   * so an empty list of types matches nothing.
   */
  predicate InDateRange(asset: Asset, start: Option<real>, end: Option<real>, types: seq<PHAssetMediaType>) {
    && (start.Some? ==> asset.creationDate.Some? && asset.creationDate.value > start.value)
    && (end.Some? ==> asset.creationDate.Some? && asset.creationDate.value < end.value)
    && asset.mediaType in types
  }

  /** `getAssetsWithDateRange(start:end:types:)` over the library as the fetch enumerates it. */
  function GetAssetsWithDateRange(library: seq<Asset>, start: Option<real>, end: Option<real>, types: seq<PHAssetMediaType>)
    : (r: seq<Asset>)
    ensures forall i :: 0 <= i < |r| ==> r[i] in library && InDateRange(r[i], start, end, types)
    ensures forall i :: 0 <= i < |library| && InDateRange(library[i], start, end, types) ==> library[i] in r
    ensures types == [] ==> r == []
  {
    var r := Seqs.Filter(library, (a: Asset) => InDateRange(a, start, end, types));
    assert |r| > 0 ==> r[0].mediaType in types;
    r
  }

  /** The query keeps the enumeration order: splitting the library splits the result. */
  lemma GetAssetsWithDateRangeAppend(s: seq<Asset>, t: seq<Asset>, start: Option<real>, end: Option<real>,
                                     types: seq<PHAssetMediaType>)
    ensures GetAssetsWithDateRange(s + t, start, end, types)
         == GetAssetsWithDateRange(s, start, end, types) + GetAssetsWithDateRange(t, start, end, types)
  {
    Seqs.FilterAppend(s, t, (a: Asset) => InDateRange(a, start, end, types));
  }

  /** `getOrientation(asset:)`: 90 for a portrait asset, 0 for square and landscape ones. */
  function GetOrientation(asset: Asset): (degrees: int)
    ensures degrees == 90 <==> asset.pixelWidth < asset.pixelHeight
    ensures degrees == 0 <==> asset.pixelWidth >= asset.pixelHeight
  {
    if asset.pixelWidth < asset.pixelHeight then 90 else 0
  }

  /** Whole seconds of the creation date, 0 without one. */
  function DateAddedOrZero(asset: Asset): (d: int)
    ensures asset.creationDate.None? ==> d == 0
    ensures asset.creationDate.Some? ==> d == Truncate(asset.creationDate.value)
  {
    CreationDateSince1970(asset).GetOr(0)
  }

  /** `getMediaAssetForVideo(asset:)`: the duration in milliseconds, a zero duration kept as zero. */
  function GetMediaAssetForVideo(asset: Asset): (m: MediaAsset)
    ensures m.id == asset.localIdentifier && m.mediaType == Video
    ensures m.dateAdded == DateAddedOrZero(asset)
    ensures m.orientation == GetOrientation(asset)
    ensures m.duration.Some? && m.duration.value == asset.duration * 1000.0
    ensures asset.duration == 0.0 ==> m.duration == Some(0.0)
  {
    var duration := if asset.duration != 0.0 then asset.duration * 1000.0 else 0.0;
    MediaAsset(asset.localIdentifier, DateAddedOrZero(asset), GetOrientation(asset), Some(duration), Video)
  }

  /** `getMediaAssetForImage(asset:)`: no duration. */
  function GetMediaAssetForImage(asset: Asset): (m: MediaAsset)
    ensures m.id == asset.localIdentifier && m.mediaType == Image
    ensures m.dateAdded == DateAddedOrZero(asset)
    ensures m.orientation == GetOrientation(asset)
    ensures m.duration.None?
  {
    MediaAsset(asset.localIdentifier, DateAddedOrZero(asset), GetOrientation(asset), None, Image)
  }

  /** `getMediaAsset(for:)`: a summary for images and videos only. */
  function GetMediaAsset(asset: Asset): (r: Option<MediaAsset>)
    ensures r.Some? <==> asset.mediaType == ImageAsset || asset.mediaType == VideoAsset
    ensures r.Some? ==> r.value.id == asset.localIdentifier
    ensures r.Some? ==> (r.value.mediaType == Video <==> asset.mediaType == VideoAsset)
    ensures r.Some? ==> (r.value.duration.Some? <==> asset.mediaType == VideoAsset)
  {
    match asset.mediaType
    case VideoAsset => Some(GetMediaAssetForVideo(asset))
    case ImageAsset => Some(GetMediaAssetForImage(asset))
    case _ => None
  }
}
