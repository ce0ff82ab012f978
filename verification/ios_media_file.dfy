/** `MediaFile.init(asset:path:thumbnailPath:)` of the iOS plugin. */
module IosMediaFile {
  import opened Wrappers
  import opened IosModel

  const UnsupportedMediaType: string := "Unsupported media type"

  /**
   * The file of an asset: its type and live-photo flag follow the asset's
   * media type, anything but an image or a video throws.  The orientation
   * comes from `MediaAsset.getOrientation`, which is not part of this model,
   * and is a parameter.
   */
  function FromAsset(asset: Asset, path: string, thumbnailPath: Option<string>, orientation: int, ios91: bool)
    : (r: Result<MediaFile, string>)
    ensures r.Failure? <==> asset.mediaType != ImageAsset && asset.mediaType != VideoAsset
    ensures r.Failure? ==> r.error == UnsupportedMediaType
    ensures r.Success? ==>
      var f := r.value;
      && f.id == asset.localIdentifier
      && f.path == Some(path) && f.thumbnailPath == thumbnailPath
      && f.dateAdded == CreationDateSince1970(asset)
      && f.orientation == orientation && f.duration == asset.duration
      && f.mimeType.None?
      && (f.mediaType == Video <==> asset.mediaType == VideoAsset)
      && (f.isLivePhoto <==> asset.mediaType == ImageAsset && ios91 && asset.photoLive)
  {
    var kind: Option<(MediaType, bool)> :=
      match asset.mediaType
      case VideoAsset => Some((Video, false))
      case ImageAsset => Some((Image, ios91 && asset.photoLive))
      case _ => None;
    match kind
    case None => Failure(UnsupportedMediaType)
    case Some((t, live)) =>
      Success(MediaFile(asset.localIdentifier, CreationDateSince1970(asset), Some(path), thumbnailPath,
                        orientation, asset.duration, None, t, live))
  }
}
