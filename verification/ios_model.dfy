/**
 * Records of the iOS side: what the Photos framework reports about an asset,
 * the `MediaFile` / `MediaAsset` / `Album` values built from it, and the small
 * conversions shared by `FileFetcher` and `MediaFetcher`.
 *
 * Dates are `real` seconds since 1970.  What the OS answers when asked about
 * an asset (its rendered thumbnail, its content-editing input, its AV asset)
 * is recorded in the asset itself, so every operation is a function of its
 * inputs.
 */
module IosModel {
  import opened Wrappers

  /** `PHAssetMediaType` and its raw values. */
  datatype PHAssetMediaType = Unknown | ImageAsset | VideoAsset | AudioAsset {
    function RawValue(): int {
      match this
      case Unknown => 0
      case ImageAsset => 1
      case VideoAsset => 2
      case AudioAsset => 3
    }
  }

  /** The plugin's `MediaType`, an `Int` enum. */
  datatype MediaType = Image | Video

  /** `MediaType.rawValue`: the cases are numbered from 0 in declaration order. */
  function RawValue(t: MediaType): (n: int)
    ensures n == 0 <==> t == Image
    ensures n == 1 <==> t == Video
  {
    match t
    case Image => 0
    case Video => 1
  }

  /** `MediaType(rawValue:)`. */
  function FromRawValue(n: int): (t: Option<MediaType>)
    ensures t.Some? <==> n == 0 || n == 1
    ensures t.Some? ==> RawValue(t.value) == n
  {
    if n == 0 then Some(Image) else if n == 1 then Some(Video) else None
  }

  lemma RawValueRoundTrip(t: MediaType)
    ensures FromRawValue(RawValue(t)) == Some(t)
  {
  }

  /** The first four entries of a `CGAffineTransform`. */
  datatype Transform = Transform(a: real, b: real, c: real, d: real)

  /** What `requestImage` delivers to `generateThumbnail`, and what writing it achieves. */
  datatype RenderOutcome =
    | NoImage       // the handler receives nil; `image!` traps
    | NoPngData     // `pngData()` is nil: the optional chain writes nothing and reports success
    | WriteFailed   // `write(to:)` throws
    | Written       // the PNG is written to the destination

  /** `PHContentEditingInput`'s full-size image URL path and its orientation. */
  datatype EditingInput = EditingInput(fullSizeImageURL: Option<string>, fullSizeImageOrientation: int)

  /**
   * What `requestAVAsset` yields for a video.  `firstVideoTrack` is the
   * preferred transform of the first video track of the asset as delivered,
   * before any composition export.  `url` and `seconds` describe the asset
   * after that export: the path of its URL (absent when it is not a URL
   * asset) and its duration in seconds (absent when the export failed).
   */
  datatype AvAsset = AvAsset(url: Option<string>, firstVideoTrack: Option<Transform>, seconds: Option<real>)

  /** A `PHAsset`. */
  datatype Asset = Asset(
    localIdentifier: string,
    mediaType: PHAssetMediaType,
    photoLive: bool,                 // mediaSubtypes contains .photoLive
    creationDate: Option<real>,
    modificationDate: real,
    pixelWidth: int,
    pixelHeight: int,
    duration: real,                  // seconds
    render: RenderOutcome,
    editingInput: Option<EditingInput>,
    avAsset: Option<AvAsset>)

  /** The Swift `MediaFile` struct. */
  datatype MediaFile = MediaFile(
    id: string,
    dateAdded: Option<int>,
    path: Option<string>,
    thumbnailPath: Option<string>,
    orientation: int,
    duration: real,
    mimeType: Option<string>,
    mediaType: MediaType,
    isLivePhoto: bool)

  /** The Swift `MediaAsset` struct. */
  datatype MediaAsset = MediaAsset(id: string, dateAdded: int, orientation: int, duration: Option<real>, mediaType: MediaType)

  /** An album as `FileFetcher.fetchAssets` builds it. */
  datatype Album = Album(id: string, name: string, files: seq<MediaFile>)

  /** A computation that may stop the process at a force unwrap. */
  datatype Outcome<T> = Trap | Done(value: T)

  /** `Int(x)` for a `Double`: truncation toward zero. */
  function Truncate(x: real): (n: int)
    ensures x >= 0.0 ==> 0 <= n && n as real <= x < n as real + 1.0
    ensures x < 0.0 ==> n <= 0 && n as real - 1.0 < x <= n as real
  {
    if x >= 0.0 then x.Floor else -((-x).Floor)
  }

  /** `getCreationDateSince1970` (and the same inline code elsewhere): whole seconds, nil without a creation date. */
  function CreationDateSince1970(asset: Asset): (r: Option<int>)
    ensures r.None? <==> asset.creationDate.None?
    ensures r.Some? ==> r.value == Truncate(asset.creationDate.value)
  {
    match asset.creationDate
    case None => None
    case Some(d) => Some(Truncate(d))
  }

  /**
   * `getVideoOrientation` (identical in FileFetcher and MediaFetcher): the
   * four rotation matrices map to their angles; any other matrix, or a
   * missing video track, gives 0.
   */
  function VideoOrientation(track: Option<Transform>): (degrees: int)
    ensures degrees in {0, 90, 180, 270}
    ensures degrees == 90 <==> track == Some(Transform(0.0, 1.0, -1.0, 0.0))
    ensures degrees == 270 <==> track == Some(Transform(0.0, -1.0, 1.0, 0.0))
    ensures degrees == 180 <==> track == Some(Transform(-1.0, 0.0, 0.0, -1.0))
  {
    match track
    case None => 0
    case Some(t) =>
      if t.a == 0.0 && t.b == 1.0 && t.c == -1.0 && t.d == 0.0 then 90
      else if t.a == 0.0 && t.b == -1.0 && t.c == 1.0 && t.d == 0.0 then 270
      else if t.a == 1.0 && t.b == 0.0 && t.c == 0.0 && t.d == 1.0 then 0
      else if t.a == -1.0 && t.b == 0.0 && t.c == 0.0 && t.d == -1.0 then 180
      else 0
  }

  /** `UIImage.Orientation`. */
  datatype ImageOrientation = Up | Down | Left | Right | UpMirrored | DownMirrored | LeftMirrored | RightMirrored

  /** `inDegrees`: the rotation of the orientation, mirroring ignored. */
  function InDegrees(o: ImageOrientation): (degrees: int)
    ensures degrees in {0, 90, 180, 270}
    ensures o in {Up, UpMirrored} <==> degrees == 0
    ensures o in {Right, RightMirrored} <==> degrees == 90
    ensures o in {Down, DownMirrored} <==> degrees == 180
    ensures o in {Left, LeftMirrored} <==> degrees == 270
  {
    match o
    case Up => 0
    case UpMirrored => 0
    case Right => 90
    case RightMirrored => 90
    case Down => 180
    case DownMirrored => 180
    case Left => 270
    case LeftMirrored => 270
  }

  function Unmirrored(o: ImageOrientation): ImageOrientation {
    match o
    case UpMirrored => Up
    case DownMirrored => Down
    case LeftMirrored => Left
    case RightMirrored => Right
    case _ => o
  }

  /** Mirroring does not change the angle. */
  lemma InDegreesIgnoresMirroring(o: ImageOrientation)
    ensures InDegrees(o) == InDegrees(Unmirrored(o))
  {
  }
}
