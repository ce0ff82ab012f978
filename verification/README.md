# media_picker_builder: a Dafny model of the album, thumbnail and normalisation logic

media_picker_builder is a Flutter plugin. It lists the photos and videos of
a device, grouped into albums, and gives each one a cached thumbnail. This
project models the deterministic core of both native halves and proves
properties of it.

**Android** (Kotlin providers):

- `FileFetcher.getAlbums` folds MediaStore image rows and then video rows
  into an insertion-ordered `LinkedHashMap` keyed by album id. It then
  attaches the MediaStore thumbnails and stable-sorts every album newest
  first. A thumbnail row with a NULL path makes it throw.
- The row-to-`MediaFile` normalisers of `ImageFileProvider` and
  `VideoFileProvider`, including the Android 10 split and the date
  selection.
- `ThumbnailImageProvider`: the thumbnail pass and the `.thumbnails/<id>.jpg`
  cache with generation on a miss.
- `getMediaFile`.
- `MediaAsset.toJSONObject`.

**iOS** (Swift classes):

- The `FileFetcher` thumbnail cache. Its file name is the base 64 of the
  identifier's UTF-8 bytes with `==` removed, followed by
  `-<modificationDate>.png`. Base 64 follows RFC 4648 section 4 and UTF-8
  follows RFC 3629. A decoder for each is defined only to prove that the
  name determines the identifier and the date.
- `getThumbnail`.
- The field rules of `getMediaFile` and `getPlayableFile`.
- `getVideosAndLivePhotos` and `getAlbums`.
- The `MediaFetcher` lookups and `MediaAsset` summaries.
- `MediaFile.init(asset:path:thumbnailPath:)` and
  `PHAsset.fetchVideosFor`.

The OS is replaced by data:

- A MediaStore cursor is `Option<seq<Row>>`; `None` is a null cursor.
- The Photos library is a sequence of `Asset` records. Each record also
  carries what the OS answers when asked about that asset: its rendered
  thumbnail, its content-editing input and its AV asset.
- The file system is a set of existing paths.
- The Android thumbnail renderer is an oracle, `ThumbnailRequest -> bool`.
- iOS `UserDefaults` is a map in the `Device` record.
- A Swift force unwrap that can fail is the `Trap` outcome.

Modules:

- `Wrappers`, `Seqs`, `Decimal`: shared helpers (`Option`/`Result`,
  order-preserving filter and first/last search, `Long.toString`).
- `AndroidModel`, `AlbumMap`, `ImageFileProvider`, `VideoFileProvider`,
  `ThumbnailImageProvider`, `StableSort`, `AndroidFileFetcher`,
  `MediaAssetJson`: the Android side. `AndroidExamples` holds two concrete
  runs.
- `IosModel`, `Base64`, `PHAssetExtension`, `IosFileFetcher`,
  `MediaFetcher`, `IosMediaFile`: the iOS side.

Where the code and its documentation disagree, the model follows the code:

- iOS `getMediaFile` and `getPlayableFile` store and return a loaded video's
  duration in milliseconds (`FileFetcher.swift:164`). The `MediaFile` field
  is documented as seconds (`MediaFile.swift:17`). `MediaFetcher` also uses
  milliseconds.
- Android 10+ videos keep `BUCKET_DISPLAY_NAME` as the album name, although
  the comment beside it says an empty string is passed
  (`VideoFileProvider.kt:161`). Only images get `""`.
- `getAlbums` passes its date bounds to `fetchImages`, but the image query
  has no selection. Only videos are date-filtered, and that filter is
  inclusive (`BETWEEN`). The iOS date-range query uses strict bounds.
- Orientation is not always one of 0/90/180/270:
  - a pre-Android-10 video whose metadata cannot be read keeps -1;
  - an iOS image loaded with `loadPath` carries the raw
    `fullSizeImageOrientation` value.
- An iOS image carries duration 0.0, not an absent duration.
- The Android cache key has no timestamp, so a changed file keeps its old
  thumbnail.
- `MediaFetcher.getMediaAssetForVideo` and `getMediaAssetForImage` construct
  `MediaAsset` with `.VIDEO`/`.IMAGE`, cases that `MediaType` does not
  declare. They are read as `.video`/`.image`.

## Model

| member | source | states |
|---|---|---|
| Decimal.IntToString | android/src/main/kotlin/com/kasem/media_picker_builder/model/MediaAsset.kt:16 | `Long.toString`: a leading minus sign exactly for negative numbers, then digits without a leading zero |
| Decimal.ParseIntToString | android/src/main/kotlin/com/kasem/media_picker_builder/model/MediaAsset.kt:16 | parsing the decimal string of an id gives the id back |
| Decimal.IntToStringInjective | android/src/main/kotlin/com/kasem/media_picker_builder/providers/ThumbnailImageProvider.kt:97 | two ids have the same decimal string exactly when they are equal |
| AlbumMap.Get | android/src/main/kotlin/com/kasem/media_picker_builder/providers/ImageFileProvider.kt:48 | `albumHashMap[albumId]` is present exactly for a key of the map, and the album found carries that key |
| AlbumMap.AddFileIds | android/src/main/kotlin/com/kasem/media_picker_builder/providers/ImageFileProvider.kt:48-57 | one loop iteration appends the file's album id to the key order when it is new, and leaves the order alone otherwise |
| AlbumMap.AddFileGet | android/src/main/kotlin/com/kasem/media_picker_builder/providers/ImageFileProvider.kt:48-57 | one iteration changes only the entry of the file's album id: an unseen id gets an album seeded with exactly that file, a seen one gets it appended |
| AlbumMap.AddFileFlatten | android/src/main/kotlin/com/kasem/media_picker_builder/providers/ImageFileProvider.kt:48-57 | one iteration adds exactly one copy of its file to the map's contents |
| AlbumMap.AddFileWellFormed | android/src/main/kotlin/com/kasem/media_picker_builder/providers/ImageFileProvider.kt:48-57 | one iteration keeps the keys distinct and every file under its own album id |
| AlbumMap.AddFilesGet | android/src/main/kotlin/com/kasem/media_picker_builder/providers/ImageFileProvider.kt:46-58 | after the loop, album k is its earlier self with every file of album id k appended in cursor order, or a new album seeded from the first such file |
| AlbumMap.AddFilesContents | android/src/main/kotlin/com/kasem/media_picker_builder/providers/ImageFileProvider.kt:46-58 | an album that existed before the loop keeps its earlier files as a prefix, followed by the new files of its id |
| AlbumMap.AddFilesIds | android/src/main/kotlin/com/kasem/media_picker_builder/providers/ImageFileProvider.kt:46-58 | albums appear in the order their album ids are first met |
| AlbumMap.AddFilesFlatten | android/src/main/kotlin/com/kasem/media_picker_builder/providers/ImageFileProvider.kt:46-58 | the loop loses and duplicates no file: the map's contents grow by exactly the cursor's files |
| AlbumMap.AddFilesWellFormed | android/src/main/kotlin/com/kasem/media_picker_builder/providers/ImageFileProvider.kt:46-58 | after the loop each file sits in the one album whose key is its album id, and no key repeats |
| AlbumMap.AddFilesAppend | android/src/main/kotlin/com/kasem/media_picker_builder/providers/FileFetcher.kt:19-25 | grouping two cursors in turn equals grouping their concatenation |
| AlbumMap.InsertionOrderShape | android/src/main/kotlin/com/kasem/media_picker_builder/providers/FileFetcher.kt:17 | the first-occurrence key order keeps the old keys as a prefix, contains exactly the old and new keys, and never repeats one |
| ImageFileProvider.CursorToMediaFile | android/src/main/kotlin/com/kasem/media_picker_builder/providers/ImageFileProvider.kt:62-84 | an image file copies id, date, path, album id, orientation and mime type from columns 0, 1, 2, 4, 5 and 6; its album name is "", its type IMAGE, and it has no duration and no thumbnail |
| ImageFileProvider.BucketNameIgnored | android/src/main/kotlin/com/kasem/media_picker_builder/providers/ImageFileProvider.kt:68-76 | the bucket display name column never reaches the file |
| ImageFileProvider.ImageFiles | android/src/main/kotlin/com/kasem/media_picker_builder/providers/ImageFileProvider.kt:46-47 | one file per cursor row, in cursor order; a null cursor gives none |
| ImageFileProvider.FetchImages | android/src/main/kotlin/com/kasem/media_picker_builder/providers/ImageFileProvider.kt:39-60 | `fetchImages` adds the new album ids in first-encounter order after the existing keys and adds exactly the image files to the map; per-album contents are stated by `AlbumMap.AddFilesGet` |
| ImageFileProvider.GetImageMediaFile | android/src/main/kotlin/com/kasem/media_picker_builder/providers/ImageFileProvider.kt:20-37 | the file of the first row with that id; null when no row matches or the cursor is null |
| VideoFileProvider.Selection | android/src/main/kotlin/com/kasem/media_picker_builder/providers/VideoFileProvider.kt:72-78 | a date selection exists exactly when both bounds are given |
| VideoFileProvider.QueryVideos | android/src/main/kotlin/com/kasem/media_picker_builder/providers/VideoFileProvider.kt:75-94 | the video cursor holds exactly the rows whose DATE_ADDED lies between the bounds inclusively, or all rows when a bound is missing |
| VideoFileProvider.CursorToMediaFileSubsequent29 | android/src/main/kotlin/com/kasem/media_picker_builder/providers/VideoFileProvider.kt:148-170 | from Android 10 on, album id and name come from the bucket columns and are not emptied; duration is the raw column divided by 1000; type VIDEO, no thumbnail |
| VideoFileProvider.CursorToMediaFilePriorTo29 | android/src/main/kotlin/com/kasem/media_picker_builder/providers/VideoFileProvider.kt:172-204 | before Android 10, album id is 0 and album name the ALBUM column; duration is absent iff extraction failed before it was read, and orientation stays -1 unless the rotation was read |
| VideoFileProvider.VideoFiles | android/src/main/kotlin/com/kasem/media_picker_builder/providers/VideoFileProvider.kt:96-97 | one file per selected row, mapped for the running API level, in cursor order |
| VideoFileProvider.FetchVideos | android/src/main/kotlin/com/kasem/media_picker_builder/providers/VideoFileProvider.kt:66-145 | `fetchVideos` adds the new album ids of the selected rows in first-encounter order after the existing keys and adds exactly those files to the map |
| VideoFileProvider.GetVideoMediaFile | android/src/main/kotlin/com/kasem/media_picker_builder/providers/VideoFileProvider.kt:13-64 | the file of the first row with that id; null when none matches or the cursor is null |
| VideoFileProvider.PriorTo29AlbumIds | android/src/main/kotlin/com/kasem/media_picker_builder/providers/VideoFileProvider.kt:192-194 | before Android 10 every video file has album id 0 |
| VideoFileProvider.PriorTo29SingleAlbum | android/src/main/kotlin/com/kasem/media_picker_builder/providers/VideoFileProvider.kt:127-142 | before Android 10 the videos form at most one album, keyed 0 |
| ThumbnailImageProvider.IndexOfId | android/src/main/kotlin/com/kasem/media_picker_builder/providers/ThumbnailImageProvider.kt:46 | `firstOrNull { it.id == fileId }`: the first position holding that id, none exactly when no file has it |
| ThumbnailImageProvider.SetThumbnail | android/src/main/kotlin/com/kasem/media_picker_builder/providers/ThumbnailImageProvider.kt:46-48 | only the first file with the id gets the thumbnail path; nothing else changes |
| ThumbnailImageProvider.AttachFlatten | android/src/main/kotlin/com/kasem/media_picker_builder/providers/ThumbnailImageProvider.kt:45-51 | across the albums in iteration order, a row updates exactly the first file with its id |
| ThumbnailImageProvider.AttachShape | android/src/main/kotlin/com/kasem/media_picker_builder/providers/ThumbnailImageProvider.kt:45-51 | a row changes no album id, name or file other than in a thumbnail path |
| ThumbnailImageProvider.AttachRows | android/src/main/kotlin/com/kasem/media_picker_builder/providers/ThumbnailImageProvider.kt:36-52 | a thumbnail cursor throws exactly when some row has a NULL `DATA`, since `File(null)` throws |
| ThumbnailImageProvider.AttachRowsShape | android/src/main/kotlin/com/kasem/media_picker_builder/providers/ThumbnailImageProvider.kt:36-52 | a whole thumbnail cursor that does not throw changes files only in their thumbnail paths |
| ThumbnailImageProvider.FetchThumbnails | android/src/main/kotlin/com/kasem/media_picker_builder/providers/ThumbnailImageProvider.kt:19-90 | `fetchThumbnails` throws exactly when a thumbnail table it reads has a NULL `DATA`; its effect on the albums is stated by `FetchThumbnailsShape`, `AttachFlatten` and `AttachTwice` |
| ThumbnailImageProvider.FetchThumbnailsShape | android/src/main/kotlin/com/kasem/media_picker_builder/providers/ThumbnailImageProvider.kt:19-90 | the thumbnail pass throws exactly when a cursor it reads has a NULL `DATA`; otherwise it keeps the album keys, their order, the names and every file but its thumbnail path |
| ThumbnailImageProvider.MissingThumbnailsIgnored | android/src/main/kotlin/com/kasem/media_picker_builder/providers/ThumbnailImageProvider.kt:38-44 | rows whose thumbnail file does not exist change nothing, and a NULL `DATA` still throws |
| ThumbnailImageProvider.SetThumbnailTwice | android/src/main/kotlin/com/kasem/media_picker_builder/providers/ThumbnailImageProvider.kt:48 | setting a thumbnail twice on the same id leaves the second one |
| ThumbnailImageProvider.AttachTwice | android/src/main/kotlin/com/kasem/media_picker_builder/providers/ThumbnailImageProvider.kt:36-52 | a later row for the same id overwrites the thumbnail an earlier row attached |
| ThumbnailImageProvider.ThumbnailPathInjective | android/src/main/kotlin/com/kasem/media_picker_builder/providers/ThumbnailImageProvider.kt:93-97 | the cache path depends on the file id alone, and distinct ids get distinct paths |
| ThumbnailImageProvider.GetThumbnail | android/src/main/kotlin/com/kasem/media_picker_builder/providers/ThumbnailImageProvider.kt:92-153 | a hit returns the path without a render request; a miss requests 90x90 (image) or 270x270 (video) from Android 10 on, MINI_KIND before, and returns the same path and adds the file iff a bitmap came back, else throws |
| ThumbnailImageProvider.GetThumbnailTwice | android/src/main/kotlin/com/kasem/media_picker_builder/providers/ThumbnailImageProvider.kt:92-103 | right after a successful call, a second call is a hit: same path, no render, no write |
| StableSort.InsertStable | android/src/main/kotlin/com/kasem/media_picker_builder/providers/FileFetcher.kt:30-32 | inserting a file keeps the relative order of the files of every date |
| StableSort.SortByDescendingDate | android/src/main/kotlin/com/kasem/media_picker_builder/providers/FileFetcher.kt:30-32 | `sortByDescending { it.dateAdded }`: non-increasing dates, the same multiset of files, and for every date the files of that date in their original order |
| AndroidFileFetcher.SortAlbums | android/src/main/kotlin/com/kasem/media_picker_builder/providers/FileFetcher.kt:29-33 | every album is sorted newest first and stably, keeping its id, name and files; the key order is unchanged |
| AndroidFileFetcher.GroupingIsOneLoop | android/src/main/kotlin/com/kasem/media_picker_builder/providers/FileFetcher.kt:19-25 | the image loop and then the video loop are one grouping loop over the image files followed by the selected video files |
| AndroidFileFetcher.GetAlbumsNothingRequested | android/src/main/kotlin/com/kasem/media_picker_builder/providers/FileFetcher.kt:17-27 | with neither images nor videos requested the map is empty |
| AndroidFileFetcher.GetAlbums | android/src/main/kotlin/com/kasem/media_picker_builder/providers/FileFetcher.kt:10-35 | `getAlbums` fails exactly when a thumbnail table it reads has a NULL `DATA`, and otherwise every album is newest first; order and contents are stated by `GetAlbumsOrder`, `GetAlbumsSorted` and `UnsortedContents` |
| AndroidFileFetcher.GetAlbumsOrder | android/src/main/kotlin/com/kasem/media_picker_builder/providers/FileFetcher.kt:17-34 | albums come out in first-encounter order of album ids over image rows then video rows, each id once |
| AndroidFileFetcher.ImageAlbumsFirst | android/src/main/kotlin/com/kasem/media_picker_builder/providers/FileFetcher.kt:17-25 | every album created by an image row precedes every album created only by video rows |
| AndroidFileFetcher.GetAlbumsSorted | android/src/main/kotlin/com/kasem/media_picker_builder/providers/FileFetcher.kt:27-33 | after `getAlbums` each album is its pre-sort self with files newest first, the same files (thumbnails included), and equal dates in their pre-sort order |
| AndroidFileFetcher.UnsortedContents | android/src/main/kotlin/com/kasem/media_picker_builder/providers/FileFetcher.kt:17-27 | before the sort album k holds exactly the fetched files of album id k in fetch order, up to thumbnail paths, and is named after its first file |
| AndroidFileFetcher.GetMediaFile | android/src/main/kotlin/com/kasem/media_picker_builder/providers/FileFetcher.kt:38-58 | IMAGE goes to the image lookup and VIDEO to the video lookup; the found file gets the cached thumbnail path only when `loadThumbnail` is set, and a failing thumbnail makes the call throw |
| AndroidExamples.ThreeImagesInTwoAlbums | android/src/main/kotlin/com/kasem/media_picker_builder/providers/FileFetcher.kt:17-34 | images 1, 2, 3 in buckets 10, 20, 10 added at 100, 300, 200 give bucket 10 = [3, 1] then bucket 20 = [2], with empty album names |
| AndroidExamples.ImageThumbnailOnVideo | android/src/main/kotlin/com/kasem/media_picker_builder/providers/ThumbnailImageProvider.kt:36-51 | matching is by id only: an image thumbnail row attaches to a video file with that id |
| MediaAssetJson.Put | android/src/main/kotlin/com/kasem/media_picker_builder/model/MediaAsset.kt:19 | `JSONObject.put`: a null value removes the key, any other value sets it, other keys are untouched |
| MediaAssetJson.ToJSONObject | android/src/main/kotlin/com/kasem/media_picker_builder/model/MediaAsset.kt:14-22 | the object has exactly the six keys, minus `duration` when it is null; `id` is the decimal string of the id, `type` the enum ordinal, and the other keys hold their field |
| MediaAssetJson.JsonRoundTrip | android/src/main/kotlin/com/kasem/media_picker_builder/model/MediaAsset.kt:14-22 | every field, `dateAdded`, `orientation` and `isLivePhoto` included, can be read back unchanged from the object |
| IosModel.RawValue | ios/Classes/MediaFile.swift:69-72 | `MediaType` raw values: image is 0 and video is 1 |
| IosModel.FromRawValue | ios/Classes/MediaFile.swift:69-72 | `MediaType(rawValue:)` succeeds exactly for 0 and 1, as the inverse of the raw value |
| IosModel.RawValueRoundTrip | ios/Classes/MediaFile.swift:69-72 | decoding the raw value of a type gives the type |
| IosModel.Truncate | ios/Classes/PHAsset_extension.swift:42 | `Int(Double)` truncates toward zero |
| IosModel.CreationDateSince1970 | ios/Classes/PHAsset_extension.swift:40-43 | nil iff the creation date is nil, otherwise its whole seconds since 1970 |
| IosModel.VideoOrientation | ios/Classes/FileFetcher.swift:197-218 | the transform (0,1,-1,0) gives exactly 90, (0,-1,1,0) exactly 270, (-1,0,0,-1) exactly 180; any other matrix or no video track gives 0 (`MediaFetcher.swift:214-235` is the same function) |
| IosModel.InDegrees | ios/Classes/FileFetcher.swift:443-466 | up and up-mirrored give 0, right and right-mirrored 90, down and down-mirrored 180, left and left-mirrored 270, each in both directions |
| IosModel.InDegreesIgnoresMirroring | ios/Classes/FileFetcher.swift:443-466 | mirroring does not change the angle |
| Base64.Utf8Char | ios/Classes/FileFetcher.swift:243 | a scalar value takes one to four bytes, an ASCII one exactly itself |
| Base64.EncodeUnpadded | ios/Classes/FileFetcher.swift:243 | the unpadded encoding uses only alphabet characters and has 4 characters per 3 bytes plus 2 or 3 for a partial group |
| Base64.Encode | ios/Classes/FileFetcher.swift:243 | `base64EncodedString()` is padded to a multiple of four characters |
| Base64.StrippedEncoding | ios/Classes/FileFetcher.swift:243 | removing "==" from an encoding removes exactly the two-character padding; a single "=" stays |
| Base64.Utf8CharDecodes | ios/Classes/FileFetcher.swift:243 | the lead byte of a character's UTF-8 encoding tells its length, and the bits give the character back |
| Base64.Utf8Injective | ios/Classes/FileFetcher.swift:243 | two strings have the same UTF-8 bytes exactly when they are equal |
| Base64.GroupRoundTrip | ios/Classes/FileFetcher.swift:243 | decoding one group of two to four characters gives back the one to three bytes it encodes |
| Base64.DecodeEncodeUnpadded | ios/Classes/FileFetcher.swift:243 | decoding the unpadded encoding gives back the bytes, so the encoding loses nothing |
| Base64.SplitTrailingEquals | ios/Classes/FileFetcher.swift:243 | a key with its trailing "=" still splits uniquely into the encoding and that "=" |
| IosFileFetcher.CachePath | ios/Classes/FileFetcher.swift:242-248 | `getCachePath` gives a `.png` file directly under the caches directory; that it is injective is stated by `CachePathInjective` |
| IosFileFetcher.CacheKey | ios/Classes/FileFetcher.swift:243 | the file name key is the unpadded base 64 of the UTF-8 identifier, plus "=" when its length is 2 modulo 3 |
| IosFileFetcher.CacheKeyInjective | ios/Classes/FileFetcher.swift:243 | two identifiers have the same file name key exactly when they are equal: the key decodes back to the identifier |
| IosFileFetcher.CacheNameInjective | ios/Classes/FileFetcher.swift:242-248 | two cache file names coincide exactly when both the identifiers and the modification dates do |
| IosFileFetcher.CachePathInjective | ios/Classes/FileFetcher.swift:242-248 | in one caches directory, no two assets share a thumbnail file, and a changed modification date gives a new file |
| IosFileFetcher.GenerateThumbnail | ios/Classes/FileFetcher.swift:220-240 | a nil image traps; a nil `pngData()` reports success and writes nothing; a failed write reports failure; only the destination can be added |
| IosFileFetcher.CachedThumbnail | ios/Classes/FileFetcher.swift:98-108 | an existing file is returned without generating; on a miss the path is returned iff generation was asked for and reported success, else nil; it traps only on a nil render; only the cache file can be added |
| IosFileFetcher.GetThumbnail | ios/Classes/FileFetcher.swift:72-89 | nil and nothing changed for an unknown identifier; otherwise the cache rule, with generation, for the first asset with that identifier |
| IosFileFetcher.GetThumbnailTwice | ios/Classes/FileFetcher.swift:72-89 | after a call that found or wrote the thumbnail, the next call returns the same path and changes nothing |
| IosFileFetcher.StoredDuration | ios/Classes/FileFetcher.swift:171-174 | without loading, the duration is the stored value, and 0 when none is stored |
| IosFileFetcher.FullSizeImageUrlAndOrientation | ios/Classes/FileFetcher.swift:250-264 | nil and 0 without a content-editing input, else its URL path and orientation |
| IosFileFetcher.LoadedDuration | ios/Classes/FileFetcher.swift:162-166 | a loaded duration is the seconds times 1000 and is stored under `duration-<id>`; without a duration nothing is stored and 0 is used |
| IosFileFetcher.GetMediaFile | ios/Classes/FileFetcher.swift:91-195 | traps on a nil render or on a nil AV asset when loading a video; a file exactly for images and videos; the thumbnail path is nil iff the cache file is absent and generation was not asked for or failed; images have duration 0.0 and the live flag iff iOS 9.1 and photoLive; videos are never live and use the stored duration unless loading; without `loadPath` there is no path and orientation is 0 |
| IosFileFetcher.GetPlayableFile | ios/Classes/FileFetcher.swift:317-392 | always generates a missing thumbnail; a file exactly for a video or (from iOS 9.1) a live photo; orientation 0; a live photo has no path, its asset's duration and the live flag; a loaded video has the exported URL path and duration in milliseconds, recorded when known, else 0 |
| IosFileFetcher.PlayableFilesKeepsEveryAsset | ios/Classes/FileFetcher.swift:302-314 | over videos and live photos the loop skips nothing: one file per asset, in order, each a video or a path-less live photo, with the stored durations untouched |
| IosFileFetcher.PlayableFilesDone | ios/Classes/FileFetcher.swift:302-314 | the loop completes when no render delivers a nil image |
| IosFileFetcher.GetVideosAndLivePhotos | ios/Classes/FileFetcher.swift:301-314 | every asset `fetchVideosFor` selects yields its playable file in enumeration order, stored durations untouched; with no end of day the result is empty |
| IosFileFetcher.MediaFilesCorrespond | ios/Classes/FileFetcher.swift:51-60 | an album's files correspond one to one, in order and by type, to its image and video assets; no thumbnail is written |
| IosFileFetcher.FetchAssetsAlbum | ios/Classes/FileFetcher.swift:51-70 | an album carries its collection's identifier and title, is kept when empty, and holds only the requested type when one type was requested |
| IosFileFetcher.FetchAlbums | ios/Classes/FileFetcher.swift:32-47 | the collection loop yields exactly one album per collection |
| IosFileFetcher.FetchAlbumsOneEach | ios/Classes/FileFetcher.swift:32-47 | one album per enumerated collection, in order |
| IosFileFetcher.GetAlbums | ios/Classes/FileFetcher.swift:14-49 | `getAlbums` yields one album per top-level asset collection and per smart album; their order and contents are stated by `GetAlbumsOrder` |
| IosFileFetcher.GetAlbumsOrder | ios/Classes/FileFetcher.swift:14-49 | the albums of the top-level asset collections come first, then those of the smart albums, one per collection, each titled, only requested types; no thumbnail is generated |
| PHAssetExtension.FetchVideosFor | ios/Classes/PHAsset_extension.swift:13-38 | empty when the end of day cannot be computed; otherwise exactly the videos and live photos created strictly within the day that are taller than wide |
| PHAssetExtension.FetchVideosForAppend | ios/Classes/PHAsset_extension.swift:29-35 | the selection keeps the enumeration order |
| MediaFetcher.GetAsset | ios/Classes/MediaFetcher.swift:13-22 | nil when no asset has the identifier, else the last one that has it |
| MediaFetcher.GetAssetsWithDateRange | ios/Classes/MediaFetcher.swift:24-60 | exactly the assets passing each given bound strictly and having one of the types; no types give no assets |
| MediaFetcher.GetAssetsWithDateRangeAppend | ios/Classes/MediaFetcher.swift:55-57 | the result keeps the enumeration order |
| MediaFetcher.GetOrientation | ios/Classes/MediaFetcher.swift:203-212 | 90 iff the asset is narrower than tall, else 0, so square assets give 0 |
| MediaFetcher.DateAddedOrZero | ios/Classes/MediaFetcher.swift:240-243 | the whole seconds of the creation date, 0 without one |
| MediaFetcher.GetMediaAssetForVideo | ios/Classes/MediaFetcher.swift:237-260 | id, video type, date defaulting to 0, pixel orientation, and duration in milliseconds, where 0 stays 0 |
| MediaFetcher.GetMediaAssetForImage | ios/Classes/MediaFetcher.swift:262-278 | id, image type, date defaulting to 0, pixel orientation and no duration |
| MediaFetcher.GetMediaAsset | ios/Classes/MediaFetcher.swift:62-71 | a summary exactly for images and videos, with a duration exactly for videos |
| IosMediaFile.FromAsset | ios/Classes/MediaFile.swift:34-66 | throws "Unsupported media type" exactly for assets that are neither image nor video; a video is never live; an image is live iff iOS 9.1 and photoLive; the date is nil iff the creation date is; id, path and thumbnail path come from the arguments and the asset |

## Left out

- OS queries and their sort orders are not modelled. Cursors and Photos
  fetch results are taken in the order the OS returns them. This covers
  `_ID DESC` on Android, and on iOS `creationDate` descending in `getAlbums`
  and ascending in `getAssetsWithDateRange`. Their filtering is modelled
  where this code builds it: the video selection, the `getAlbums` type
  predicate, the date-range predicate and the `fetchVideosFor` window.
- NSPredicate semantics are assumed: an AND of predicates is their
  conjunction, an OR with no subpredicates matches nothing, and a bound on
  a nil `creationDate` fails.
- Calendar arithmetic: `startOfDay` and the end of day are parameters of
  `fetchVideosFor`. Its `duration` argument is unused by the source and is
  not modelled.
- Bitmap rendering, JPEG/PNG encoding and `updateThumbnailMediaStore`:
  generation is an oracle that succeeds or fails.
- IosFileFetcher.LoadedDuration: the `rounded()` of the milliseconds value
  is not applied, because the model uses exact real numbers. For the same
  reason, Double and CGFloat comparisons are exact.
- Integer widths: Kotlin `Long`/`Int` and Swift `Int` are unbounded here.
  No arithmetic in the core can overflow. `Truncate` ignores the trap Swift
  raises for a `Double` out of `Int` range.
- Semaphore bridging of the callback APIs, the AVComposition export (its
  outcome is the `AvAsset` record) and the deprecated
  `getPHImageFileURLKeyAndOrientation`.
- The race between concurrent thumbnail generations, and every other
  concurrency matter.
- iOS `getLivePhotoPath` and `getVideoPath`, `AssetFilesHelper`, the plugin
  classes, and `MediaFetcher.getMediaFile`/`getVideoURL`/`getImageUrl`:
  foreign I/O and method-channel plumbing. `MediaFetcher.getMediaFile`
  never calls its completion for images and videos.
- `MediaAsset.getOrientation` and `MediaAsset(asset:)` are not part of this
  model. The orientation `MediaFile.init(asset:)` takes from it is a
  parameter of `IosMediaFile.FromAsset`.
- `modificationDate` is assumed present. The source force-casts it, and
  every `PHAsset` has one.
- The `type` argument of iOS `getThumbnail` is unused by the source and is
  not modelled.
- ThumbnailImageProvider.AttachRows: a NULL thumbnail `DATA` is modelled
  and makes `getAlbums` throw. The other cursor strings, such as the path,
  the MIME type and the bucket name, are modelled as non-null.
- The Android image and video providers' `cursor.close()` and
  `MediaMetadataRetriever.release()`: resource handling with no effect on
  results.
