/** `VideoFileProvider`: video rows of MediaStore to `MediaFile`s, grouped into albums. */
module VideoFileProvider {
  import opened Wrappers
  import opened Seqs
  import opened AndroidModel
  import opened AlbumMap

  /**
   * The selection `fetchVideos` builds: `DATE_ADDED BETWEEN start AND end`
   * when both bounds are given, no selection otherwise.
   */
  function Selection(startDate: Option<int>, endDate: Option<int>): (r: Option<(int, int)>)
    ensures r.Some? <==> startDate.Some? && endDate.Some?
    ensures r.Some? ==> r.value == (startDate.value, endDate.value)
  {
    if startDate.Some? && endDate.Some? then Some((startDate.value, endDate.value)) else None
  }

  /** Whether a row passes the selection; SQL's BETWEEN includes both bounds. */
  predicate Selected(selection: Option<(int, int)>, row: VideoRow) {
    match selection
    case None => true
    case Some((lo, hi)) => lo <= row.dateAdded <= hi
  }

  /** The cursor the OS returns for the selection: the rows of the table that pass it, in table order. */
  function QueryVideos(table: Cursor<VideoRow>, startDate: Option<int>, endDate: Option<int>): (c: Cursor<VideoRow>)
    ensures table.None? <==> c.None?
    ensures c.Some? ==> forall row :: row in c.value <==>
      (row in table.value && (startDate.None? || endDate.None? || startDate.value <= row.dateAdded <= endDate.value))
  {
    match table
    case None => None
    case Some(rows) =>
      var selection := Selection(startDate, endDate);
      Some(Filter(rows, (row: VideoRow) => Selected(selection, row)))
  }

  /**
   * `cursorToMediaFileSubsequent29`: the bucket columns give the album id and
   * name (the name is kept, not emptied), and the duration column is converted
   * from milliseconds to seconds.
   */
  function CursorToMediaFileSubsequent29(row: VideoRow): (f: MediaFile)
    ensures f.mediaType == Video && f.thumbnailPath.None?
    ensures f.albumId == row.bucketId && f.albumName == row.bucketDisplayName
    ensures f.duration == Some(row.durationMillis / 1000.0)
    ensures f.id == row.id && f.dateAdded == row.dateAdded && f.path == row.data
    ensures f.mimeType == row.mimeType && f.orientation == row.orientation
  {
    MediaFile(row.id, row.bucketId, row.bucketDisplayName, row.dateAdded, row.data, None,
              row.orientation, row.mimeType, Some(row.durationMillis / 1000.0), Video)
  }

  /** `duration` as the metadata `try` block leaves it: set only once the duration was read. */
  function ExtractedDuration(m: Extraction): Option<real> {
    match m
    case SourceFailed => None
    case DurationFailed => None
    case RotationFailed(ms) => Some(ms / 1000.0)
    case Extracted(ms, _) => Some(ms / 1000.0)
  }

  /** `orientation` as the metadata `try` block leaves it: -1 unless the rotation was read too. */
  function ExtractedOrientation(m: Extraction): int {
    match m
    case Extracted(_, rotation) => rotation
    case _ => -1
  }

  /**
   * `cursorToMediaFilePriorTo29`: the album id is the constant 0, the album
   * name is the ALBUM column, duration and orientation come from the metadata
   * retriever.
   */
  function CursorToMediaFilePriorTo29(row: VideoRow): (f: MediaFile)
    ensures f.mediaType == Video && f.thumbnailPath.None?
    ensures f.albumId == 0 && f.albumName == row.album
    ensures f.id == row.id && f.dateAdded == row.dateAdded && f.path == row.data && f.mimeType == row.mimeType
    ensures f.duration.None? <==> row.metadata.SourceFailed? || row.metadata.DurationFailed?
    ensures f.orientation == (if row.metadata.Extracted? then row.metadata.rotation else -1)
  {
    MediaFile(row.id, 0, row.album, row.dateAdded, row.data, None,
              ExtractedOrientation(row.metadata), row.mimeType, ExtractedDuration(row.metadata), Video)
  }

  /** The row mapping the running API level selects. */
  function CursorToMediaFile(sdk: int, row: VideoRow): MediaFile {
    if sdk >= Q then CursorToMediaFileSubsequent29(row) else CursorToMediaFilePriorTo29(row)
  }

  function VideoFiles(sdk: int, cursor: Cursor<VideoRow>): (fs: seq<MediaFile>)
    ensures cursor.None? ==> fs == []
    ensures cursor.Some? ==> |fs| == |cursor.value|
    ensures cursor.Some? ==> forall i :: 0 <= i < |fs| ==> fs[i] == CursorToMediaFile(sdk, cursor.value[i])
  {
    match cursor
    case None => []
    case Some(rows) => seq(|rows|, i requires 0 <= i < |rows| => CursorToMediaFile(sdk, rows[i]))
  }

  /** `fetchVideos`: the selected rows, mapped for the API level, grouped into the map. */
  function FetchVideos(albums: seq<Album>, sdk: int, table: Cursor<VideoRow>,
                       startDate: Option<int>, endDate: Option<int>): (r: seq<Album>)
    ensures var fs := VideoFiles(sdk, QueryVideos(table, startDate, endDate));
      && Ids(r) == InsertionOrder(Ids(albums), AlbumIdsOf(fs))
      && multiset(Flatten(r)) == multiset(Flatten(albums)) + multiset(fs)
  {
    var fs := VideoFiles(sdk, QueryVideos(table, startDate, endDate));
    AddFilesIds(albums, fs);
    AddFilesFlatten(albums, fs);
    AddFiles(albums, fs)
  }

  /** `getVideoMediaFile`: the first row with `_ID = fileId`, mapped for the API level; null when none. */
  function GetVideoMediaFile(sdk: int, table: Cursor<VideoRow>, fileId: int): (r: Option<MediaFile>)
    ensures table.None? ==> r.None?
    ensures table.Some? ==> (r.Some? <==> exists i :: 0 <= i < |table.value| && table.value[i].id == fileId)
    ensures r.Some? ==> r.value.id == fileId && r.value.mediaType == Video
    ensures r.Some? ==> exists i :: 0 <= i < |table.value| && r.value == CursorToMediaFile(sdk, table.value[i])
                                   && forall j :: 0 <= j < i ==> table.value[j].id != fileId
  {
    match table
    case None => None
    case Some(rows) =>
      match FirstIndex(rows, (row: VideoRow) => row.id == fileId)
      case None => None
      case Some(i) => Some(CursorToMediaFile(sdk, rows[i]))
  }

  lemma {:induction false} PriorTo29AlbumIds(sdk: int, cursor: Cursor<VideoRow>)
    requires sdk < Q
    ensures forall i :: 0 <= i < |VideoFiles(sdk, cursor)| ==> AlbumIdsOf(VideoFiles(sdk, cursor))[i] == 0
  {
  }

  lemma {:induction false} InsertionOrderOfZeros(ks: seq<int>, xs: seq<int>)
    requires ks == [] || ks == [0]
    requires forall i :: 0 <= i < |xs| ==> xs[i] == 0
    ensures InsertionOrder(ks, xs) == if xs == [] then ks else [0]
    decreases |xs|
  {
    if xs != [] {
      var next := if xs[0] in ks then ks else ks + [xs[0]];
      assert next == [0];
      InsertionOrderOfZeros(next, xs[1..]);
    }
  }

  /** Before Android 10 every video has album id 0, so all videos land in one album. */
  lemma PriorTo29SingleAlbum(sdk: int, table: Cursor<VideoRow>, startDate: Option<int>, endDate: Option<int>)
    requires sdk < Q
    ensures var albums := FetchVideos([], sdk, table, startDate, endDate);
            |albums| <= 1 && forall i :: 0 <= i < |albums| ==> albums[i].id == 0
  {
    var fs := VideoFiles(sdk, QueryVideos(table, startDate, endDate));
    AddFilesIds([], fs);
    PriorTo29AlbumIds(sdk, QueryVideos(table, startDate, endDate));
    InsertionOrderOfZeros([], AlbumIdsOf(fs));
    assert Ids([]) == [];
  }
}
