/** `FileFetcher` on Android: `getAlbums` and `getMediaFile`. */
module AndroidFileFetcher {
  import opened Wrappers
  import opened AndroidModel
  import opened AlbumMap
  import opened ImageFileProvider
  import opened VideoFileProvider
  import opened ThumbnailImageProvider
  import opened StableSort

  /** Every album's files sorted newest first, stably; nothing else changes. */
  function SortAlbums(albums: seq<Album>): (r: seq<Album>)
    ensures |r| == |albums| && Ids(r) == Ids(albums)
    ensures forall i :: 0 <= i < |r| ==> r[i].id == albums[i].id && r[i].name == albums[i].name
    ensures forall i :: 0 <= i < |r| ==> SortedByDateDesc(r[i].files)
    ensures forall i :: 0 <= i < |r| ==> multiset(r[i].files) == multiset(albums[i].files)
    ensures forall i, d :: 0 <= i < |r| ==> WithDate(r[i].files, d) == WithDate(albums[i].files, d)
  {
    seq(|albums|, i requires 0 <= i < |albums| => albums[i].(files := SortByDescendingDate(albums[i].files)))
  }

  /** The files the two providers feed into the map, in the order they are grouped: images, then videos. */
  function FetchedFiles(store: MediaStore, sdk: int, withImages: bool, withVideos: bool,
                        startDate: Option<int>, endDate: Option<int>): seq<MediaFile>
  {
    (if withImages then ImageFiles(store.images) else [])
      + (if withVideos then VideoFiles(sdk, QueryVideos(store.videos, startDate, endDate)) else [])
  }

  /** The map after the provider loops, before thumbnails and sorting. */
  function Grouping(store: MediaStore, sdk: int, withImages: bool, withVideos: bool,
                    startDate: Option<int>, endDate: Option<int>): seq<Album>
  {
    var afterImages := if withImages then FetchImages([], store.images) else [];
    if withVideos then FetchVideos(afterImages, sdk, store.videos, startDate, endDate) else afterImages
  }

  /** The map after the thumbnail pass, just before the sort; `None` when that pass throws. */
  function Unsorted(store: MediaStore, sdk: int, existing: set<string>, withImages: bool, withVideos: bool,
                    startDate: Option<int>, endDate: Option<int>): Option<seq<Album>>
  {
    FetchThumbnails(Grouping(store, sdk, withImages, withVideos, startDate, endDate), store, existing, withImages, withVideos)
  }

  /**
   * `getAlbums`.  `existing` is the set of files present on the device.  The
   * date bounds reach only the video query: `fetchImages` takes none.  `None`
   * stands for the exception a NULL thumbnail `DATA` raises.
   */
  function GetAlbums(store: MediaStore, sdk: int, existing: set<string>, withImages: bool, withVideos: bool,
                     startDate: Option<int>, endDate: Option<int>): (r: Option<seq<Album>>)
    ensures r.None? <==> ThumbnailsThrow(store, withImages, withVideos)
    ensures r.Some? ==> forall i :: 0 <= i < |r.value| ==> SortedByDateDesc(r.value[i].files)
  {
    match Unsorted(store, sdk, existing, withImages, withVideos, startDate, endDate)
    case None => None
    case Some(albums) => Some(SortAlbums(albums))
  }

  /** The two provider loops are one grouping loop over images followed by videos. */
  lemma GroupingIsOneLoop(store: MediaStore, sdk: int, withImages: bool, withVideos: bool,
                          startDate: Option<int>, endDate: Option<int>)
    ensures Grouping(store, sdk, withImages, withVideos, startDate, endDate)
         == AddFiles([], FetchedFiles(store, sdk, withImages, withVideos, startDate, endDate))
  {
    var images := if withImages then ImageFiles(store.images) else [];
    var videos := if withVideos then VideoFiles(sdk, QueryVideos(store.videos, startDate, endDate)) else [];
    AddFilesAppend([], images, videos);
    if !withImages { assert AddFiles([], []) == []; }
  }

  /** With neither kind requested nothing is queried and the map stays empty. */
  lemma GetAlbumsNothingRequested(store: MediaStore, sdk: int, existing: set<string>,
                                  startDate: Option<int>, endDate: Option<int>)
    ensures GetAlbums(store, sdk, existing, false, false, startDate, endDate) == Some([])
  {
    assert Grouping(store, sdk, false, false, startDate, endDate) == [];
    FetchThumbnailsShape([], store, existing, false, false);
  }

  /**
   * Albums come out in the order their album ids are first met in the image
   * rows and then the video rows, each id once.
   */
  lemma GetAlbumsOrder(store: MediaStore, sdk: int, existing: set<string>, withImages: bool, withVideos: bool,
                       startDate: Option<int>, endDate: Option<int>)
    ensures var r := GetAlbums(store, sdk, existing, withImages, withVideos, startDate, endDate);
      r.Some? ==>
        && Ids(r.value) == InsertionOrder([], AlbumIdsOf(FetchedFiles(store, sdk, withImages, withVideos, startDate, endDate)))
        && Distinct(Ids(r.value))
  {
    var fetched := FetchedFiles(store, sdk, withImages, withVideos, startDate, endDate);
    GroupingIsOneLoop(store, sdk, withImages, withVideos, startDate, endDate);
    AddFilesIds([], fetched);
    InsertionOrderShape([], AlbumIdsOf(fetched));
    FetchThumbnailsShape(Grouping(store, sdk, withImages, withVideos, startDate, endDate), store, existing, withImages, withVideos);
  }

  lemma InsertionOrderAppend(ks: seq<int>, xs: seq<int>, ys: seq<int>)
    ensures InsertionOrder(ks, xs + ys) == InsertionOrder(InsertionOrder(ks, xs), ys)
    decreases |xs|
  {
    if xs == [] {
      assert xs + ys == ys;
    } else {
      assert (xs + ys)[1..] == xs[1..] + ys;
      InsertionOrderAppend(if xs[0] in ks then ks else ks + [xs[0]], xs[1..], ys);
    }
  }

  /** In first-occurrence order, every key of `xs` precedes every key met only in `ys`. */
  lemma InsertionOrderFirstPart(xs: seq<int>, ys: seq<int>, i: int, j: int)
    requires var r := InsertionOrder([], xs + ys); 0 <= i < |r| && 0 <= j < |r| && r[i] in xs && r[j] !in xs
    ensures i < j
  {
    var r := InsertionOrder([], xs + ys);
    InsertionOrderAppend([], xs, ys);
    var prefix := InsertionOrder([], xs);
    InsertionOrderShape([], xs);
    InsertionOrderShape(prefix, ys);
    assert r[..|prefix|] == prefix;
  }

  /** Every album that an image row created precedes every album created only by video rows. */
  lemma ImageAlbumsFirst(store: MediaStore, sdk: int, existing: set<string>, withVideos: bool,
                         startDate: Option<int>, endDate: Option<int>, i: int, j: int)
    requires var r := GetAlbums(store, sdk, existing, true, withVideos, startDate, endDate);
             r.Some? && 0 <= i < |r.value| && 0 <= j < |r.value|
    requires var albums := GetAlbums(store, sdk, existing, true, withVideos, startDate, endDate).value;
             albums[i].id in AlbumIdsOf(ImageFiles(store.images)) && albums[j].id !in AlbumIdsOf(ImageFiles(store.images))
    ensures i < j
  {
    var imageIds := AlbumIdsOf(ImageFiles(store.images));
    var videos := if withVideos then VideoFiles(sdk, QueryVideos(store.videos, startDate, endDate)) else [];
    var fetched := FetchedFiles(store, sdk, true, withVideos, startDate, endDate);
    assert fetched == ImageFiles(store.images) + videos;
    AlbumIdsOfAppend(ImageFiles(store.images), videos);
    GetAlbumsOrder(store, sdk, existing, true, withVideos, startDate, endDate);
    InsertionOrderFirstPart(imageIds, AlbumIdsOf(videos), i, j);
  }

  /**
   * Each album of the result is the same album before the sort with its files
   * reordered: newest first, the same files (thumbnails included), equal dates
   * in their earlier order.
   */
  lemma GetAlbumsSorted(store: MediaStore, sdk: int, existing: set<string>, withImages: bool, withVideos: bool,
                        startDate: Option<int>, endDate: Option<int>, i: int, d: int)
    requires var r := GetAlbums(store, sdk, existing, withImages, withVideos, startDate, endDate);
             r.Some? && 0 <= i < |r.value|
    ensures Unsorted(store, sdk, existing, withImages, withVideos, startDate, endDate).Some?
    ensures var after := GetAlbums(store, sdk, existing, withImages, withVideos, startDate, endDate).value;
            var before := Unsorted(store, sdk, existing, withImages, withVideos, startDate, endDate).value;
            && SortedByDateDesc(after[i].files)
            && after[i].id == before[i].id && after[i].name == before[i].name
            && multiset(after[i].files) == multiset(before[i].files)
            && WithDate(after[i].files, d) == WithDate(before[i].files, d)
  {
  }

  /**
   * Before the sort, album `k` holds exactly the fetched files whose album id
   * is `k`, in fetch order, differing at most in their thumbnail paths; a new
   * album takes the name of its first file.
   */
  lemma UnsortedContents(store: MediaStore, sdk: int, existing: set<string>, withImages: bool, withVideos: bool,
                         startDate: Option<int>, endDate: Option<int>, i: int)
    requires var r := Unsorted(store, sdk, existing, withImages, withVideos, startDate, endDate);
             r.Some? && 0 <= i < |r.value|
    ensures var albums := Unsorted(store, sdk, existing, withImages, withVideos, startDate, endDate).value;
            var group := InAlbum(FetchedFiles(store, sdk, withImages, withVideos, startDate, endDate), albums[i].id);
            group != [] && Erased(albums[i].files) == Erased(group) && albums[i].name == group[0].albumName
  {
    var fetched := FetchedFiles(store, sdk, withImages, withVideos, startDate, endDate);
    var grouped := Grouping(store, sdk, withImages, withVideos, startDate, endDate);
    var albums := Unsorted(store, sdk, existing, withImages, withVideos, startDate, endDate).value;
    GroupingIsOneLoop(store, sdk, withImages, withVideos, startDate, endDate);
    FetchThumbnailsShape(grouped, store, existing, withImages, withVideos);
    var k := albums[i].id;
    assert grouped[i].id == k;
    AddFilesGet([], fetched, k);
    assert Get([], k) == None;
    AddFilesWellFormed([], fetched);
    assert Get(grouped, k) == Some(grouped[i]) by {
      GetIsIndex(grouped, i);
    }
  }

  lemma {:induction false} GetIsIndex(albums: seq<Album>, i: int)
    requires 0 <= i < |albums| && DistinctIds(albums)
    ensures Get(albums, albums[i].id) == Some(albums[i])
    decreases |albums|
  {
    if i > 0 {
      assert albums[0].id == Ids(albums)[0] && albums[i].id == Ids(albums)[i];
      assert DistinctIds(albums[1..]) by {
        assert Ids(albums[1..]) == Ids(albums)[1..];
      }
      GetIsIndex(albums[1..], i - 1);
    }
  }

  /** The result of `getMediaFile`, the files existing afterwards, and the thumbnail render request issued, if any. */
  datatype MediaFileOutcome = MediaFileOutcome(
    file: Result<Option<MediaFile>, Failure>,
    files: set<string>,
    request: Option<ThumbnailRequest>)

  /** The lookup `getMediaFile` dispatches to by type. */
  function Lookup(store: MediaStore, sdk: int, fileId: int, mediaType: MediaType): Option<MediaFile> {
    match mediaType
    case Image => GetImageMediaFile(store.images, fileId)
    case Video => GetVideoMediaFile(sdk, store.videos, fileId)
  }

  /**
   * `getMediaFile`: the lookup for the type; when it found a file and a
   * thumbnail is wanted, the thumbnail path from the cache (which may throw).
   */
  function GetMediaFile(store: MediaStore, sdk: int, files: set<string>, externalCacheDir: Option<string>,
                        fileId: int, mediaType: MediaType, loadThumbnail: bool,
                        renders: ThumbnailRequest -> bool): (r: MediaFileOutcome)
    ensures r.file.Success? && r.file.value.Some? ==>
      r.file.value.value.id == fileId && r.file.value.value.mediaType == mediaType
    ensures var found := Lookup(store, sdk, fileId, mediaType);
            found.None? || !loadThumbnail ==> r == MediaFileOutcome(Success(found), files, None)
    ensures var found := Lookup(store, sdk, fileId, mediaType);
            var thumb := GetThumbnail(files, externalCacheDir, fileId, mediaType, sdk, renders);
            found.Some? && loadThumbnail ==>
              && r.files == thumb.files && r.request == thumb.request
              && (thumb.path.Success? ==> r.file == Success(Some(found.value.(thumbnailPath := Some(thumb.path.value)))))
              && (thumb.path.Failure? ==> r.file == Failure(thumb.path.error))
  {
    var found := Lookup(store, sdk, fileId, mediaType);
    if found.Some? && loadThumbnail then
      var thumb := GetThumbnail(files, externalCacheDir, fileId, mediaType, sdk, renders);
      match thumb.path
      case Success(p) => MediaFileOutcome(Success(Some(found.value.(thumbnailPath := Some(p)))), thumb.files, thumb.request)
      case Failure(e) => MediaFileOutcome(Failure(e), thumb.files, thumb.request)
    else MediaFileOutcome(Success(found), files, None)
  }
}
