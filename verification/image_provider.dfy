/** `ImageFileProvider`: image rows of MediaStore to `MediaFile`s, grouped into albums. */
module ImageFileProvider {
  import opened Wrappers
  import opened Seqs
  import opened AndroidModel
  import opened AlbumMap

  /**
   * `cursorToMediaFile`: every column is copied except the bucket display name,
   * which is replaced by the empty string; an image has no duration and no
   * thumbnail yet.
   */
  function CursorToMediaFile(row: ImageRow): (f: MediaFile)
    ensures f.mediaType == Image && f.albumName == ""
    ensures f.duration.None? && f.thumbnailPath.None?
    ensures f.id == row.id && f.dateAdded == row.dateAdded && f.path == row.data
    ensures f.albumId == row.bucketId && f.orientation == row.orientation && f.mimeType == row.mimeType
  {
    MediaFile(
      id := row.id,
      albumId := row.bucketId,
      albumName := "",
      dateAdded := row.dateAdded,
      path := row.data,
      thumbnailPath := None,
      orientation := row.orientation,
      mimeType := row.mimeType,
      duration := None,
      mediaType := Image)
  }

  /** The bucket display name never reaches the file: two rows that differ only there give the same file. */
  lemma BucketNameIgnored(row: ImageRow, name: string)
    ensures CursorToMediaFile(row.(bucketDisplayName := name)) == CursorToMediaFile(row)
  {
  }

  /** The files of an image cursor, one per row, in cursor order; a null cursor gives none. */
  function ImageFiles(cursor: Cursor<ImageRow>): (fs: seq<MediaFile>)
    ensures cursor.None? ==> fs == []
    ensures cursor.Some? ==> |fs| == |cursor.value|
    ensures cursor.Some? ==> forall i :: 0 <= i < |fs| ==> fs[i] == CursorToMediaFile(cursor.value[i])
  {
    match cursor
    case None => []
    case Some(rows) => seq(|rows|, i requires 0 <= i < |rows| => CursorToMediaFile(rows[i]))
  }

  /**
   * `fetchImages`: the query has no selection (the date bounds `getAlbums`
   * passes are not used), so every image row is grouped.
   */
  function FetchImages(albums: seq<Album>, cursor: Cursor<ImageRow>): (r: seq<Album>)
    ensures Ids(r) == InsertionOrder(Ids(albums), AlbumIdsOf(ImageFiles(cursor)))
    ensures multiset(Flatten(r)) == multiset(Flatten(albums)) + multiset(ImageFiles(cursor))
  {
    AddFilesIds(albums, ImageFiles(cursor));
    AddFilesFlatten(albums, ImageFiles(cursor));
    AddFiles(albums, ImageFiles(cursor))
  }

  /**
   * `getImageMediaFile`: the query `_ID = fileId` over the image table, then
   * the first row if there is one.
   */
  function GetImageMediaFile(table: Cursor<ImageRow>, fileId: int): (r: Option<MediaFile>)
    ensures table.None? ==> r.None?
    ensures table.Some? ==> (r.Some? <==> exists i :: 0 <= i < |table.value| && table.value[i].id == fileId)
    ensures r.Some? ==> r.value.id == fileId && r.value.mediaType == Image
    ensures r.Some? ==> exists i :: 0 <= i < |table.value| && r.value == CursorToMediaFile(table.value[i])
                                   && forall j :: 0 <= j < i ==> table.value[j].id != fileId
  {
    match table
    case None => None
    case Some(rows) =>
      match FirstIndex(rows, (row: ImageRow) => row.id == fileId)
      case None => None
      case Some(i) => Some(CursorToMediaFile(rows[i]))
  }
}
