/**
 * Records of the Android side: the rows MediaStore hands back, and the
 * `MediaFile` / `Album` values the providers build from them.  Kotlin's `Long`
 * and `Int` columns are modelled as unbounded integers (every value read from a
 * cursor already fits its column type, and no arithmetic on them can overflow).
 */
module AndroidModel {
  import opened Wrappers

  /** `Build.VERSION_CODES.Q`, the API level of Android 10. */
  const Q: int := 29

  /** `MediaFile.MediaType`, in declaration order (IMAGE, then VIDEO). */
  datatype MediaType = Image | Video

  /** The value `MediaFile`'s constructor is called with, field by field. */
  datatype MediaFile = MediaFile(
    id: int,
    albumId: int,
    albumName: string,
    dateAdded: int,
    path: string,
    thumbnailPath: Option<string>,
    orientation: int,
    mimeType: string,
    duration: Option<real>,   // seconds
    mediaType: MediaType)

  /** An album: its bucket id (also its key in the album map), its name, its files. */
  datatype Album = Album(id: int, name: string, files: seq<MediaFile>)

  /** A row of `MediaStore.Images.Media`, with the seven projected columns in order. */
  datatype ImageRow = ImageRow(
    id: int,                 // _ID
    dateAdded: int,          // DATE_ADDED
    data: string,            // DATA
    bucketDisplayName: string,
    bucketId: int,
    orientation: int,
    mimeType: string)

  /**
   * What `MediaMetadataRetriever` achieves on a video file before Android 10.
   * The extraction is one `try` block, so it stops at the first failure:
   * the data source, then the duration, then the rotation.
   */
  datatype Extraction =
    | SourceFailed                                     // setDataSource threw
    | DurationFailed                                   // duration missing or not a number
    | RotationFailed(durationMillis: real)             // duration read, rotation not
    | Extracted(durationMillis: real, rotation: int)

  /**
   * A row of `MediaStore.Video.Media` with every column either projection reads.
   * A NULL `DURATION` reads as 0 through `getDouble`, so it is a plain number here.
   * `metadata` is what the metadata retriever reads from the file at `data`.
   */
  datatype VideoRow = VideoRow(
    id: int,
    dateAdded: int,
    data: string,
    mimeType: string,
    bucketId: int,
    bucketDisplayName: string,
    durationMillis: real,    // DURATION
    orientation: int,        // ORIENTATION
    album: string,           // ALBUM
    metadata: Extraction)

  /** A row of the image or video thumbnail table: the media id and the thumbnail file, `None` for a NULL `DATA`. */
  datatype ThumbRow = ThumbRow(fileId: int, data: Option<string>)

  /**
   * What `ContentResolver.query` returns: `None` for a null cursor, otherwise
   * the rows in the cursor's order.
   */
  type Cursor<T> = Option<seq<T>>

  /** The MediaStore tables the providers query. */
  datatype MediaStore = MediaStore(
    images: Cursor<ImageRow>,
    videos: Cursor<VideoRow>,
    imageThumbnails: Cursor<ThumbRow>,
    videoThumbnails: Cursor<ThumbRow>)
}
