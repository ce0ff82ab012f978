/**
 * The iOS `FileFetcher`: the thumbnail cache in the caches directory,
 * `getThumbnail`, the `MediaFile` built by `getMediaFile` and
 * `getPlayableFile`, `getVideosAndLivePhotos` and `getAlbums`.
 *
 * The mutable state the fetcher touches is a `Device`: the caches
 * directory, the set of files in it, and the durations kept in
 * `UserDefaults`.  Every operation returns its value together with the
 * device after it, or `Trap` where a force unwrap fails.
 */
module IosFileFetcher {
  import opened Wrappers
  import opened IosModel
  import Base64
  import Decimal
  import Seqs
  import PHAssetExtension

  datatype Device = Device(cachesDir: string, files: set<string>, durations: map<string, real>)

  /** A value together with the device state after computing it. */
  datatype Step<T> = Step(value: T, device: Device)

  // ---------------------------------------------------------------------
  // The thumbnail cache
  // ---------------------------------------------------------------------

  /** The base 64 of the identifier's UTF-8 bytes with "==" removed. */
  function CacheKey(identifier: string): (key: string)
    ensures key == Base64.EncodeUnpadded(Base64.Utf8(identifier))
                   + (if |Base64.Utf8(identifier)| % 3 == 2 then "=" else "")
  {
    Base64.StrippedEncoding(Base64.Utf8(identifier));
    Base64.RemoveDoubleEquals(Base64.Encode(Base64.Utf8(identifier)))
  }

  /** The file name in the caches directory: `<key>-<modificationDate>.png`. */
  function CacheName(identifier: string, modificationDate: int): string {
    CacheKey(identifier) + "-" + (Decimal.IntToString(modificationDate) + ".png")
  }

  /** `getCachePath`: `<caches>/<key>-<modificationDate>.png`. */
  function CachePath(cachesDir: string, identifier: string, modificationDate: int): (path: string)
    ensures |path| > |cachesDir| + 5
    ensures path[..|cachesDir| + 1] == cachesDir + "/" && path[|path| - 4..] == ".png"
  {
    cachesDir + "/" + CacheName(identifier, modificationDate)
  }

  /** The cache path of an asset: its modification date is truncated to whole seconds. */
  function CacheFile(dev: Device, asset: Asset): string {
    CachePath(dev.cachesDir, asset.localIdentifier, Truncate(asset.modificationDate))
  }

  /** Distinct identifiers have distinct cache keys: the key can be decoded back to the identifier. */
  lemma CacheKeyInjective(id1: string, id2: string)
    ensures CacheKey(id1) == CacheKey(id2) <==> id1 == id2
  {
    var a, b := Base64.Utf8(id1), Base64.Utf8(id2);
    var ea, eb := Base64.EncodeUnpadded(a), Base64.EncodeUnpadded(b);
    var pa: string := if |a| % 3 == 2 then "=" else "";
    var pb: string := if |b| % 3 == 2 then "=" else "";
    var k := CacheKey(id1);
    if k == CacheKey(id2) {
      assert k == ea + pa == eb + pb;
      Base64.SplitTrailingEquals(ea, pa, eb, pb);
      Base64.DecodeEncodeUnpadded(a);
      Base64.DecodeEncodeUnpadded(b);
      Base64.Utf8Injective(id1, id2);
    }
  }

  /** No cache key contains the '-' that separates it from the date. */
  lemma CacheKeyHasNoDash(identifier: string)
    ensures forall i :: 0 <= i < |CacheKey(identifier)| ==> CacheKey(identifier)[i] != '-'
  {
  }

  /** Two strings joined to a dash-free prefix by '-' determine that prefix and the rest. */
  lemma SplitAtDash(k1: string, r1: string, k2: string, r2: string)
    requires forall i :: 0 <= i < |k1| ==> k1[i] != '-'
    requires forall i :: 0 <= i < |k2| ==> k2[i] != '-'
    requires k1 + "-" + r1 == k2 + "-" + r2
    ensures k1 == k2 && r1 == r2
  {
    var s := k1 + "-" + r1;
    assert s[|k1|] == '-' && s[|k2|] == '-';
    assert forall i :: 0 <= i < |k1| ==> s[i] == k1[i];
    assert forall i :: 0 <= i < |k2| ==> s[i] == k2[i];
    assert k1 == s[..|k1|] && k2 == s[..|k2|];
    assert r1 == s[|k1| + 1..] && r2 == s[|k2| + 1..];
  }

  /** Two cache file names coincide exactly when both the identifiers and the modification dates do. */
  lemma CacheNameInjective(id1: string, m1: int, id2: string, m2: int)
    ensures CacheName(id1, m1) == CacheName(id2, m2) <==> id1 == id2 && m1 == m2
  {
    var k1, k2 := CacheKey(id1), CacheKey(id2);
    var d1, d2 := Decimal.IntToString(m1), Decimal.IntToString(m2);
    if CacheName(id1, m1) == CacheName(id2, m2) {
      CacheKeyHasNoDash(id1);
      CacheKeyHasNoDash(id2);
      SplitAtDash(k1, d1 + ".png", k2, d2 + ".png");
      Base64.SplitEqual(d1, ".png", d2, ".png");
      CacheKeyInjective(id1, id2);
      Decimal.IntToStringInjective(m1, m2);
    }
  }

  /**
   * Two cache paths in one caches directory coincide exactly when both the
   * identifiers and the modification dates do: no two assets share a
   * thumbnail file, and an edited asset gets a fresh one.
   */
  lemma CachePathInjective(cachesDir: string, id1: string, m1: int, id2: string, m2: int)
    ensures CachePath(cachesDir, id1, m1) == CachePath(cachesDir, id2, m2) <==> id1 == id2 && m1 == m2
  {
    if CachePath(cachesDir, id1, m1) == CachePath(cachesDir, id2, m2) {
      Base64.SplitEqual(cachesDir + "/", CacheName(id1, m1), cachesDir + "/", CacheName(id2, m2));
    }
    CacheNameInjective(id1, m1, id2, m2);
  }

  /** What `generateThumbnail` reports and the files in the caches directory after it. */
  datatype Generated = Generated(saved: bool, files: set<string>)

  /**
   * `generateThumbnail`: a nil image traps at `image!`; a nil `pngData()`
   * skips the write and still reports success; a failed write reports
   * failure; otherwise the PNG is written to `destination`.
   */
  function GenerateThumbnail(render: RenderOutcome, destination: string, files: set<string>): (r: Outcome<Generated>)
    ensures r.Trap? <==> render == NoImage
    ensures r.Done? ==> (r.value.saved <==> render != WriteFailed)
    ensures r.Done? ==> files <= r.value.files <= files + {destination}
    ensures r.Done? ==> (destination in r.value.files <==> destination in files || render == Written)
  {
    match render
    case NoImage => Trap
    case NoPngData => Done(Generated(true, files))
    case WriteFailed => Done(Generated(false, files))
    case Written => Done(Generated(true, files + {destination}))
  }

  /** The probe traps only when it has to render and the render delivers no image. */
  predicate ThumbnailTraps(dev: Device, asset: Asset, generate: bool) {
    CacheFile(dev, asset) !in dev.files && generate && asset.render == NoImage
  }

  /**
   * The thumbnail probe shared by `getThumbnail`, `getMediaFile` and
   * `getPlayableFile`, with the hit/miss rule: an existing file is returned
   * and nothing is generated; on a miss the path is returned only when
   * generation was asked for and reported success (a render without PNG
   * data reports success without writing).  Only the cache file may be
   * added to the directory.
   */
  function CachedThumbnail(dev: Device, asset: Asset, generate: bool): (r: Outcome<Step<Option<string>>>)
    ensures r.Trap? <==> ThumbnailTraps(dev, asset, generate)
    ensures CacheFile(dev, asset) in dev.files ==> r == Done(Step(Some(CacheFile(dev, asset)), dev))
    ensures CacheFile(dev, asset) !in dev.files && !generate ==> r == Done(Step(None, dev))
    ensures r.Done? ==>
      var Step(path, after) := r.value;
      && (path.Some? ==> path.value == CacheFile(dev, asset))
      && (path.Some? <==> CacheFile(dev, asset) in dev.files || (generate && asset.render in {NoPngData, Written}))
      && after.cachesDir == dev.cachesDir && after.durations == dev.durations
      && dev.files <= after.files <= dev.files + {CacheFile(dev, asset)}
      && (CacheFile(dev, asset) in after.files <==> CacheFile(dev, asset) in dev.files || (generate && asset.render == Written))
  {
    var path := CacheFile(dev, asset);
    if path in dev.files then Done(Step(Some(path), dev))
    else if !generate then Done(Step(None, dev))
    else match GenerateThumbnail(asset.render, path, dev.files)
      case Trap => Trap
      case Done(g) => Done(Step(if g.saved then Some(path) else None, dev.(files := g.files)))
  }

  /** `getThumbnail`: the first asset with the identifier, always generating on a miss; nil for an unknown identifier. */
  function GetThumbnail(library: seq<Asset>, dev: Device, fileId: string): (r: Outcome<Step<Option<string>>>)
    ensures (forall i :: 0 <= i < |library| ==> library[i].localIdentifier != fileId) ==> r == Done(Step(None, dev))
    ensures (exists i :: 0 <= i < |library| && library[i].localIdentifier == fileId) ==>
      exists i :: 0 <= i < |library| && library[i].localIdentifier == fileId
        && (forall j :: 0 <= j < i ==> library[j].localIdentifier != fileId)
        && r == CachedThumbnail(dev, library[i], true)
  {
    match Seqs.FirstIndex(library, (a: Asset) => a.localIdentifier == fileId)
    case None => Done(Step(None, dev))
    case Some(i) => CachedThumbnail(dev, library[i], true)
  }

  /**
   * Two successive calls: once a thumbnail has been written or found, the
   * next call returns the same path and changes nothing.  A render without
   * PNG data is the exception, since it reports a path it did not write.
   */
  lemma GetThumbnailTwice(library: seq<Asset>, dev: Device, fileId: string, asset: Asset)
    requires asset in library && asset.localIdentifier == fileId
    requires forall a :: a in library && a.localIdentifier == fileId ==> a == asset
    requires asset.render != NoPngData
    requires GetThumbnail(library, dev, fileId).Done?
    requires GetThumbnail(library, dev, fileId).value.value.Some?
    ensures var after := GetThumbnail(library, dev, fileId).value.device;
      GetThumbnail(library, after, fileId) == Done(Step(GetThumbnail(library, dev, fileId).value.value, after))
  {
    var after := GetThumbnail(library, dev, fileId).value.device;
    assert CacheFile(after, asset) == CacheFile(dev, asset);
  }

  // ---------------------------------------------------------------------
  // getMediaFile and getPlayableFile
  // ---------------------------------------------------------------------

  /** The `UserDefaults` key of a video's duration. */
  function DurationKey(identifier: string): string {
    "duration-" + identifier
  }

  /**
   * The stored duration without loading the video: `double(forKey:)` gives
   * 0 for a missing key, 0 is treated as absent, and absent becomes 0.0.
   */
  function StoredDuration(durations: map<string, real>, identifier: string): (d: real)
    ensures DurationKey(identifier) in durations ==> d == durations[DurationKey(identifier)]
    ensures DurationKey(identifier) !in durations ==> d == 0.0
  {
    if DurationKey(identifier) in durations then durations[DurationKey(identifier)] else 0.0
  }

  /** `getFullSizeImageURLAndOrientation`: nil and 0 without a content-editing input. */
  function FullSizeImageUrlAndOrientation(asset: Asset): (r: (Option<string>, int))
    ensures asset.editingInput.None? ==> r == (None, 0)
    ensures asset.editingInput.Some? ==>
      r == (asset.editingInput.value.fullSizeImageURL, asset.editingInput.value.fullSizeImageOrientation)
  {
    match asset.editingInput
    case None => (None, 0)
    case Some(input) => (input.fullSizeImageURL, input.fullSizeImageOrientation)
  }

  /** A loaded video's duration in milliseconds, recorded under its key when known. */
  function LoadedDuration(dev: Device, identifier: string, av: AvAsset): (r: Step<real>)
    ensures av.seconds.None? ==> r == Step(0.0, dev)
    ensures av.seconds.Some? ==>
      && r.value == av.seconds.value * 1000.0
      && r.device == dev.(durations := dev.durations[DurationKey(identifier) := r.value])
  {
    match av.seconds
    case None => Step(0.0, dev)
    case Some(seconds) =>
      var millis := seconds * 1000.0;
      Step(millis, dev.(durations := dev.durations[DurationKey(identifier) := millis]))
  }

  /**
   * `getMediaFile(for:loadPath:generateThumbnailIfNotFound:)`.  `ios91` is
   * whether `#available(iOS 9.1, *)` holds.
   */
  function GetMediaFile(dev: Device, asset: Asset, loadPath: bool, generateThumbnailIfNotFound: bool, ios91: bool)
    : (r: Outcome<Step<Option<MediaFile>>>)
    // traps: the thumbnail render gave no image, or a loaded video has no AV asset
    ensures r.Trap? <==>
      ThumbnailTraps(dev, asset, generateThumbnailIfNotFound)
      || (asset.mediaType == VideoAsset && loadPath && asset.avAsset.None?)
    // a file exactly for images and videos
    ensures r.Done? ==> (r.value.value.Some? <==> asset.mediaType in {ImageAsset, VideoAsset})
    ensures r.Done? && r.value.value.Some? ==>
      var f := r.value.value.value;
      && f.id == asset.localIdentifier
      && f.dateAdded == CreationDateSince1970(asset)
      && f.mimeType.None?
      && (f.thumbnailPath.Some? ==> f.thumbnailPath.value == CacheFile(dev, asset))
      && (f.thumbnailPath.None? <==>
            CacheFile(dev, asset) !in dev.files && (!generateThumbnailIfNotFound || asset.render == WriteFailed))
      && (!loadPath ==> f.path.None? && f.orientation == 0)
    // images
    ensures r.Done? && asset.mediaType == ImageAsset ==>
      var f := r.value.value.value;
      && f.mediaType == Image && f.duration == 0.0
      && (f.isLivePhoto <==> ios91 && asset.photoLive)
      && (loadPath ==> (f.path, f.orientation) == FullSizeImageUrlAndOrientation(asset))
    // videos
    ensures r.Done? && asset.mediaType == VideoAsset ==>
      var f := r.value.value.value;
      && f.mediaType == Video && !f.isLivePhoto
      && (!loadPath ==> f.duration == StoredDuration(dev.durations, asset.localIdentifier))
      && (loadPath ==>
            && f.path == asset.avAsset.value.url
            && f.orientation == VideoOrientation(asset.avAsset.value.firstVideoTrack)
            && f.duration == (if asset.avAsset.value.seconds.Some? then asset.avAsset.value.seconds.value * 1000.0 else 0.0))
    // the device: the cache file may be added; a loaded video's duration may be recorded
    ensures r.Done? ==>
      var after := r.value.device;
      && after.cachesDir == dev.cachesDir
      && dev.files <= after.files <= dev.files + {CacheFile(dev, asset)}
      && (generateThumbnailIfNotFound || after.files == dev.files)
      && (asset.mediaType == VideoAsset && loadPath && asset.avAsset.value.seconds.Some? ==>
            after.durations == dev.durations[DurationKey(asset.localIdentifier) := asset.avAsset.value.seconds.value * 1000.0])
      && (!(asset.mediaType == VideoAsset && loadPath && asset.avAsset.value.seconds.Some?) ==>
            after.durations == dev.durations)
  {
    match CachedThumbnail(dev, asset, generateThumbnailIfNotFound)
    case Trap => Trap
    case Done(Step(thumbnail, probed)) =>
      var id := asset.localIdentifier;
      if asset.mediaType == ImageAsset then
        var (url, orientation) := if loadPath then FullSizeImageUrlAndOrientation(asset) else (None, 0);
        Done(Step(Some(MediaFile(id, CreationDateSince1970(asset), url, thumbnail, orientation, 0.0,
                                 None, Image, ios91 && asset.photoLive)), probed))
      else if asset.mediaType == VideoAsset then
        if !loadPath then
          Done(Step(Some(MediaFile(id, CreationDateSince1970(asset), None, thumbnail, 0,
                                   StoredDuration(probed.durations, id), None, Video, false)), probed))
        else match asset.avAsset
          case None => Trap
          case Some(av) =>
            var Step(duration, recorded) := LoadedDuration(probed, id, av);
            Done(Step(Some(MediaFile(id, CreationDateSince1970(asset), av.url, thumbnail,
                                     VideoOrientation(av.firstVideoTrack), duration, None, Video, false)), recorded))
      else Done(Step(None, probed))
  }

  /**
   * `getPlayableFile(for:loadPath:)`: always generates a missing thumbnail;
   * a video gives a video file with orientation 0, a live photo gives an
   * image file without a path, anything else gives nil.
   */
  function GetPlayableFile(dev: Device, asset: Asset, loadPath: bool, ios91: bool): (r: Outcome<Step<Option<MediaFile>>>)
    ensures r.Trap? <==> ThumbnailTraps(dev, asset, true)
    ensures r.Done? ==>
      (r.value.value.Some? <==> asset.mediaType == VideoAsset || (asset.mediaType == ImageAsset && ios91 && asset.photoLive))
    ensures r.Done? && r.value.value.Some? ==>
      var f := r.value.value.value;
      && f.id == asset.localIdentifier
      && f.dateAdded == CreationDateSince1970(asset)
      && f.orientation == 0 && f.mimeType.None?
      && (f.thumbnailPath.Some? ==> f.thumbnailPath.value == CacheFile(dev, asset))
      && (f.thumbnailPath.None? <==> CacheFile(dev, asset) !in dev.files && asset.render == WriteFailed)
      && (f.isLivePhoto <==> asset.mediaType == ImageAsset)
      && (f.mediaType == Image <==> asset.mediaType == ImageAsset)
      && (f.isLivePhoto ==> f.path.None? && f.duration == asset.duration)
      && (asset.mediaType == VideoAsset && !loadPath ==>
            f.path.None? && f.duration == StoredDuration(dev.durations, asset.localIdentifier))
      && (asset.mediaType == VideoAsset && loadPath ==>
            && f.path == (if asset.avAsset.Some? then asset.avAsset.value.url else None)
            && f.duration == (if asset.avAsset.Some? && asset.avAsset.value.seconds.Some?
                              then asset.avAsset.value.seconds.value * 1000.0 else 0.0))
    ensures r.Done? ==>
      var after := r.value.device;
      && after.cachesDir == dev.cachesDir
      && dev.files <= after.files <= dev.files + {CacheFile(dev, asset)}
      && after.durations ==
           if asset.mediaType == VideoAsset && loadPath && asset.avAsset.Some? && asset.avAsset.value.seconds.Some?
           then dev.durations[DurationKey(asset.localIdentifier) := asset.avAsset.value.seconds.value * 1000.0]
           else dev.durations
  {
    match CachedThumbnail(dev, asset, true)
    case Trap => Trap
    case Done(Step(thumbnail, probed)) =>
      var id := asset.localIdentifier;
      if asset.mediaType == VideoAsset then
        if !loadPath then
          Done(Step(Some(MediaFile(id, CreationDateSince1970(asset), None, thumbnail, 0,
                                   StoredDuration(probed.durations, id), None, Video, false)), probed))
        else match asset.avAsset
          case None => Done(Step(Some(MediaFile(id, CreationDateSince1970(asset), None, thumbnail, 0,
                                                0.0, None, Video, false)), probed))
          case Some(av) =>
            var Step(duration, recorded) := LoadedDuration(probed, id, av);
            Done(Step(Some(MediaFile(id, CreationDateSince1970(asset), av.url, thumbnail, 0,
                                     duration, None, Video, false)), recorded))
      else if asset.mediaType == ImageAsset && ios91 && asset.photoLive then
        Done(Step(Some(MediaFile(id, CreationDateSince1970(asset), None, thumbnail, 0,
                                 asset.duration, None, Image, true)), probed))
      else Done(Step(None, probed))
  }

  // ---------------------------------------------------------------------
  // getVideosAndLivePhotos
  // ---------------------------------------------------------------------

  /** The loop of `getVideosAndLivePhotos`: each asset's playable file, nil ones skipped, the device threaded through. */
  function PlayableFiles(dev: Device, assets: seq<Asset>): (r: Outcome<Step<seq<MediaFile>>>)
    ensures r.Done? ==> |r.value.value| <= |assets|
    decreases |assets|
  {
    if assets == [] then Done(Step([], dev))
    else match GetPlayableFile(dev, assets[0], false, true)
      case Trap => Trap
      case Done(Step(file, next)) =>
        match PlayableFiles(next, assets[1..])
        case Trap => Trap
        case Done(Step(rest, last)) => Done(Step((if file.Some? then [file.value] else []) + rest, last))
  }

  /** A playable file: a video that is not a live photo, or a live photo without a path. */
  predicate PlayableShape(f: MediaFile) {
    (f.mediaType == Video && !f.isLivePhoto) || (f.mediaType == Image && f.isLivePhoto && f.path.None?)
  }

  /** Each file is the playable file of the asset at its position. */
  predicate PlayableFilesOf(files: seq<MediaFile>, assets: seq<Asset>) {
    && |files| == |assets|
    && forall i :: 0 <= i < |files| ==> files[i].id == assets[i].localIdentifier && PlayableShape(files[i])
  }

  lemma PlayableFilesOfAppend(files: seq<MediaFile>, assets: seq<Asset>, moreFiles: seq<MediaFile>, moreAssets: seq<Asset>)
    requires PlayableFilesOf(files, assets) && PlayableFilesOf(moreFiles, moreAssets)
    ensures PlayableFilesOf(files + moreFiles, assets + moreAssets)
  {
  }

  /** What one step of the loop contributes for a playable asset. */
  lemma PlayableFileStep(dev: Device, asset: Asset)
    requires PHAssetExtension.Playable(asset)
    ensures GetPlayableFile(dev, asset, false, true).Done? ==>
      var Step(file, next) := GetPlayableFile(dev, asset, false, true).value;
      && file.Some? && PlayableFilesOf([file.value], [asset])
      && next.cachesDir == dev.cachesDir && next.durations == dev.durations && dev.files <= next.files
  {
  }

  /**
   * Over playable assets nothing is skipped: the files are those of the
   * assets, in order, each a video or a live photo; the durations are only
   * read, and the directory only gains cache files.
   */
  lemma {:induction false} PlayableFilesKeepsEveryAsset(dev: Device, assets: seq<Asset>)
    requires forall i :: 0 <= i < |assets| ==> PHAssetExtension.Playable(assets[i])
    ensures PlayableFiles(dev, assets).Done? ==>
      var Step(files, after) := PlayableFiles(dev, assets).value;
      && PlayableFilesOf(files, assets)
      && after.cachesDir == dev.cachesDir && after.durations == dev.durations
      && dev.files <= after.files
    decreases |assets|
  {
    if assets != [] {
      var first := GetPlayableFile(dev, assets[0], false, true);
      PlayableFileStep(dev, assets[0]);
      if first.Done? {
        var Step(file, next) := first.value;
        var rest := PlayableFiles(next, assets[1..]);
        PlayableFilesKeepsEveryAsset(next, assets[1..]);
        if rest.Done? {
          var Step(tail, last) := rest.value;
          assert PlayableFiles(dev, assets) == Done(Step([file.value] + tail, last));
          assert assets == [assets[0]] + assets[1..];
          PlayableFilesOfAppend([file.value], [assets[0]], tail, assets[1..]);
        }
      }
    }
  }

  /** Without a render that delivers no image, the loop runs to completion. */
  lemma {:induction false} PlayableFilesDone(dev: Device, assets: seq<Asset>)
    requires forall i :: 0 <= i < |assets| ==> assets[i].render != NoImage
    ensures PlayableFiles(dev, assets).Done?
    decreases |assets|
  {
    if assets != [] {
      var Step(file, next) := GetPlayableFile(dev, assets[0], false, true).value;
      PlayableFilesDone(next, assets[1..]);
    }
  }

  /**
   * `getVideosAndLivePhotos(_:duration:)` (available from iOS 9.1): the
   * playable files, without loading paths, of the assets `fetchVideosFor`
   * selects.  The `duration` argument is not used by the source.  Every
   * asset of the day yields a file, in the enumeration order.
   */
  function GetVideosAndLivePhotos(library: seq<Asset>, dev: Device, beginningOfDay: real, endOfDay: Option<real>)
    : (r: Outcome<Step<seq<MediaFile>>>)
    ensures r.Done? ==>
      && PlayableFilesOf(r.value.value, PHAssetExtension.FetchVideosFor(library, beginningOfDay, endOfDay))
      && r.value.device.durations == dev.durations
    ensures endOfDay.None? ==> r == Done(Step([], dev))
  {
    PlayableFilesKeepsEveryAsset(dev, PHAssetExtension.FetchVideosFor(library, beginningOfDay, endOfDay));
    PlayableFiles(dev, PHAssetExtension.FetchVideosFor(library, beginningOfDay, endOfDay))
  }

  // ---------------------------------------------------------------------
  // getAlbums
  // ---------------------------------------------------------------------

  /** A `PHAssetCollection` (or, among the top-level user collections, a collection list when `isAssetCollection` is false). */
  datatype Collection = Collection(localIdentifier: string, localizedTitle: Option<string>, isAssetCollection: bool, assets: seq<Asset>)

  predicate IsAssetCollection(c: Collection) {
    c.isAssetCollection
  }

  /**
   * The fetch predicate of `getAlbums`: images or videos, images, videos,
   * or, with neither flag, no predicate at all.
   */
  predicate TypeWanted(withImages: bool, withVideos: bool, t: PHAssetMediaType) {
    if withImages && withVideos then t == ImageAsset || t == VideoAsset
    else if withImages then t == ImageAsset
    else if withVideos then t == VideoAsset
    else true
  }

  function AssetWanted(withImages: bool, withVideos: bool): Asset -> bool {
    (a: Asset) => TypeWanted(withImages, withVideos, a.mediaType)
  }

  predicate ImageOrVideo(a: Asset) {
    a.mediaType == ImageAsset || a.mediaType == VideoAsset
  }

  /** The enumeration in `fetchAssets`: `getMediaFile` without generating thumbnails, nil results skipped. */
  function MediaFiles(dev: Device, assets: seq<Asset>, loadPath: bool, ios91: bool): Outcome<Step<seq<MediaFile>>>
    decreases |assets|
  {
    if assets == [] then Done(Step([], dev))
    else match GetMediaFile(dev, assets[0], loadPath, false, ios91)
      case Trap => Trap
      case Done(Step(file, next)) =>
        match MediaFiles(next, assets[1..], loadPath, ios91)
        case Trap => Trap
        case Done(Step(rest, last)) => Done(Step((if file.Some? then [file.value] else []) + rest, last))
  }

  /** Each file is the file of the asset at its position: same identifier, image exactly for an image asset. */
  predicate Corresponds(files: seq<MediaFile>, assets: seq<Asset>) {
    && |files| == |assets|
    && forall i :: 0 <= i < |files| ==>
         files[i].id == assets[i].localIdentifier && (files[i].mediaType == Image <==> assets[i].mediaType == ImageAsset)
  }

  lemma CorrespondsAppend(files: seq<MediaFile>, assets: seq<Asset>, moreFiles: seq<MediaFile>, moreAssets: seq<Asset>)
    requires Corresponds(files, assets) && Corresponds(moreFiles, moreAssets)
    ensures Corresponds(files + moreFiles, assets + moreAssets)
  {
  }

  /** What one step of the enumeration in `fetchAssets` contributes. */
  lemma MediaFileStep(dev: Device, asset: Asset, loadPath: bool, ios91: bool)
    ensures GetMediaFile(dev, asset, loadPath, false, ios91).Done? ==>
      var Step(file, next) := GetMediaFile(dev, asset, loadPath, false, ios91).value;
      && Corresponds(if file.Some? then [file.value] else [], if ImageOrVideo(asset) then [asset] else [])
      && next.files == dev.files && next.cachesDir == dev.cachesDir
  {
  }

  /** The files correspond one to one, in order, to the image and video assets; no thumbnail is written. */
  lemma {:induction false} MediaFilesCorrespond(dev: Device, assets: seq<Asset>, loadPath: bool, ios91: bool)
    ensures MediaFiles(dev, assets, loadPath, ios91).Done? ==>
      var Step(files, after) := MediaFiles(dev, assets, loadPath, ios91).value;
      && Corresponds(files, Seqs.Filter(assets, ImageOrVideo))
      && after.files == dev.files && after.cachesDir == dev.cachesDir
    decreases |assets|
  {
    if assets != [] {
      var first := GetMediaFile(dev, assets[0], loadPath, false, ios91);
      if first.Done? {
        var Step(file, next) := first.value;
        var rest := MediaFiles(next, assets[1..], loadPath, ios91);
        if rest.Done? {
          var Step(tail, last) := rest.value;
          var head := if file.Some? then [file.value] else [];
          assert Corresponds(head, if ImageOrVideo(assets[0]) then [assets[0]] else [])
              && next.files == dev.files && next.cachesDir == dev.cachesDir by {
            MediaFileStep(dev, assets[0], loadPath, ios91);
          }
          assert Corresponds(tail, Seqs.Filter(assets[1..], ImageOrVideo))
              && last.files == next.files && last.cachesDir == next.cachesDir by {
            MediaFilesCorrespond(next, assets[1..], loadPath, ios91);
          }
          assert MediaFiles(dev, assets, loadPath, ios91) == Done(Step(head + tail, last));
          var keptHead := if ImageOrVideo(assets[0]) then [assets[0]] else [];
          assert Seqs.Filter(assets, ImageOrVideo) == keptHead + Seqs.Filter(assets[1..], ImageOrVideo);
          CorrespondsAppend(head, keptHead, tail, Seqs.Filter(assets[1..], ImageOrVideo));
        }
      }
    }
  }

  /** `fetchAssets(forCollection:fetchOptions:loadPath:)`: the album is kept even when empty; a nil title traps. */
  function FetchAssets(dev: Device, collection: Collection, withImages: bool, withVideos: bool, loadPath: bool, ios91: bool)
    : Outcome<Step<Album>>
  {
    var wanted := Seqs.Filter(collection.assets, AssetWanted(withImages, withVideos));
    match MediaFiles(dev, wanted, loadPath, ios91)
    case Trap => Trap
    case Done(Step(files, after)) =>
      match collection.localizedTitle
      case None => Trap
      case Some(title) => Done(Step(Album(collection.localIdentifier, title, files), after))
  }

  /** The files of an album have the requested type when exactly one type was requested. */
  predicate FilesOfRequestedType(album: Album, withImages: bool, withVideos: bool) {
    forall i :: 0 <= i < |album.files| ==>
      (withImages && !withVideos ==> album.files[i].mediaType == Image)
      && (!withImages && withVideos ==> album.files[i].mediaType == Video)
  }

  /** An album is its collection's identifier and title, and holds only requested types. */
  lemma FetchAssetsAlbum(dev: Device, collection: Collection, withImages: bool, withVideos: bool, loadPath: bool, ios91: bool)
    ensures FetchAssets(dev, collection, withImages, withVideos, loadPath, ios91).Done? ==>
      var Step(album, after) := FetchAssets(dev, collection, withImages, withVideos, loadPath, ios91).value;
      && collection.localizedTitle == Some(album.name)
      && album.id == collection.localIdentifier
      && FilesOfRequestedType(album, withImages, withVideos)
      && after.files == dev.files && after.cachesDir == dev.cachesDir
  {
    var p := AssetWanted(withImages, withVideos);
    var wanted := Seqs.Filter(collection.assets, p);
    MediaFilesCorrespond(dev, wanted, loadPath, ios91);
    var kept := Seqs.Filter(wanted, ImageOrVideo);
    forall i | 0 <= i < |kept|
      ensures p(kept[i])
    {
      assert kept[i] in wanted;
    }
  }

  /** The loop over one fetch result of collections. */
  function FetchAlbums(dev: Device, collections: seq<Collection>, withImages: bool, withVideos: bool, loadPath: bool, ios91: bool)
    : (r: Outcome<Step<seq<Album>>>)
    ensures r.Done? ==> |r.value.value| == |collections|
    decreases |collections|
  {
    if collections == [] then Done(Step([], dev))
    else match FetchAssets(dev, collections[0], withImages, withVideos, loadPath, ios91)
      case Trap => Trap
      case Done(Step(album, next)) =>
        match FetchAlbums(next, collections[1..], withImages, withVideos, loadPath, ios91)
        case Trap => Trap
        case Done(Step(rest, last)) => Done(Step([album] + rest, last))
  }

  /** The album fetched for `collection`: its identifier, its title, only the requested types. */
  predicate AlbumFor(album: Album, collection: Collection, withImages: bool, withVideos: bool) {
    && album.id == collection.localIdentifier
    && collection.localizedTitle == Some(album.name)
    && FilesOfRequestedType(album, withImages, withVideos)
  }

  /** One album per collection, in order. */
  predicate AlbumsOf(albums: seq<Album>, collections: seq<Collection>, withImages: bool, withVideos: bool) {
    && |albums| == |collections|
    && forall i :: 0 <= i < |albums| ==> AlbumFor(albums[i], collections[i], withImages, withVideos)
  }

  lemma AlbumsOfAppend(albums: seq<Album>, collections: seq<Collection>, more: seq<Album>, moreCollections: seq<Collection>,
                       withImages: bool, withVideos: bool)
    requires AlbumsOf(albums, collections, withImages, withVideos) && AlbumsOf(more, moreCollections, withImages, withVideos)
    ensures AlbumsOf(albums + more, collections + moreCollections, withImages, withVideos)
  {
    var all := albums + more;
    var cs := collections + moreCollections;
    forall i | 0 <= i < |all| ensures AlbumFor(all[i], cs[i], withImages, withVideos) {
      if i >= |albums| { assert all[i] == more[i - |albums|] && cs[i] == moreCollections[i - |albums|]; }
    }
  }

  lemma {:induction false} FetchAlbumsOneEach(dev: Device, collections: seq<Collection>, withImages: bool, withVideos: bool,
                                              loadPath: bool, ios91: bool)
    ensures FetchAlbums(dev, collections, withImages, withVideos, loadPath, ios91).Done? ==>
      var Step(albums, after) := FetchAlbums(dev, collections, withImages, withVideos, loadPath, ios91).value;
      AlbumsOf(albums, collections, withImages, withVideos) && after.files == dev.files && after.cachesDir == dev.cachesDir
    decreases |collections|
  {
    if collections != [] {
      var first := FetchAssets(dev, collections[0], withImages, withVideos, loadPath, ios91);
      if first.Done? {
        var Step(album, next) := first.value;
        var rest := FetchAlbums(next, collections[1..], withImages, withVideos, loadPath, ios91);
        if rest.Done? {
          var Step(tail, last) := rest.value;
          assert AlbumsOf([album], [collections[0]], withImages, withVideos)
              && next.files == dev.files && next.cachesDir == dev.cachesDir by {
            FetchAssetsAlbum(dev, collections[0], withImages, withVideos, loadPath, ios91);
          }
          assert AlbumsOf(tail, collections[1..], withImages, withVideos)
              && last.files == next.files && last.cachesDir == next.cachesDir by {
            FetchAlbumsOneEach(next, collections[1..], withImages, withVideos, loadPath, ios91);
          }
          assert collections == [collections[0]] + collections[1..];
          AlbumsOfAppend([album], [collections[0]], tail, collections[1..], withImages, withVideos);
        }
      }
    }
  }

  /**
   * `getAlbums(withImages:withVideos:loadPaths:)`: the top-level user
   * collections that are asset collections, then the smart albums.
   */
  function GetAlbums(dev: Device, topLevelUserCollections: seq<Collection>, smartAlbums: seq<Collection>,
                     withImages: bool, withVideos: bool, loadPaths: bool, ios91: bool): (r: Outcome<Step<seq<Album>>>)
    ensures r.Done? ==>
      |r.value.value| == |Seqs.Filter(topLevelUserCollections, IsAssetCollection)| + |smartAlbums|
  {
    var userAlbums := Seqs.Filter(topLevelUserCollections, IsAssetCollection);
    match FetchAlbums(dev, userAlbums, withImages, withVideos, loadPaths, ios91)
    case Trap => Trap
    case Done(Step(top, next)) =>
      match FetchAlbums(next, smartAlbums, withImages, withVideos, loadPaths, ios91)
      case Trap => Trap
      case Done(Step(smart, last)) => Done(Step(top + smart, last))
  }

  /**
   * The albums are those of the user asset collections followed by those of
   * the smart albums, one per collection and in order, every one titled;
   * with one type requested, only that type appears; no thumbnail is
   * generated.
   */
  lemma GetAlbumsOrder(dev: Device, topLevelUserCollections: seq<Collection>, smartAlbums: seq<Collection>,
                       withImages: bool, withVideos: bool, loadPaths: bool, ios91: bool)
    ensures GetAlbums(dev, topLevelUserCollections, smartAlbums, withImages, withVideos, loadPaths, ios91).Done? ==>
      var Step(albums, after) := GetAlbums(dev, topLevelUserCollections, smartAlbums, withImages, withVideos, loadPaths, ios91).value;
      var userAlbums := Seqs.Filter(topLevelUserCollections, IsAssetCollection);
      && AlbumsOf(albums, userAlbums + smartAlbums, withImages, withVideos)
      && after.files == dev.files
  {
    var userAlbums := Seqs.Filter(topLevelUserCollections, IsAssetCollection);
    var first := FetchAlbums(dev, userAlbums, withImages, withVideos, loadPaths, ios91);
    FetchAlbumsOneEach(dev, userAlbums, withImages, withVideos, loadPaths, ios91);
    if first.Done? {
      var Step(top, next) := first.value;
      var second := FetchAlbums(next, smartAlbums, withImages, withVideos, loadPaths, ios91);
      FetchAlbumsOneEach(next, smartAlbums, withImages, withVideos, loadPaths, ios91);
      if second.Done? {
        var Step(smart, last) := second.value;
        assert GetAlbums(dev, topLevelUserCollections, smartAlbums, withImages, withVideos, loadPaths, ios91)
            == Done(Step(top + smart, last));
        AlbumsOfAppend(top, userAlbums, smart, smartAlbums, withImages, withVideos);
      }
    }
  }
}
