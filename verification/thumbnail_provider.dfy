/**
 * `ThumbnailImageProvider`: attaching MediaStore's own thumbnails to the
 * grouped files, and the `.thumbnails/<id>.jpg` cache with generation on miss.
 * The file system is the set of existing paths; the OS renderer is an oracle
 * answering whether a thumbnail request yields a bitmap.
 */
module ThumbnailImageProvider {
  import opened Wrappers
  import opened Decimal
  import opened AndroidModel
  import opened AlbumMap

  /** The index of the first file with the given id. */
  function IndexOfId(fs: seq<MediaFile>, id: int): (r: Option<nat>)
    ensures r.None? <==> forall i :: 0 <= i < |fs| ==> fs[i].id != id
    ensures r.Some? ==> r.value < |fs| && fs[r.value].id == id
    ensures r.Some? ==> forall j :: 0 <= j < r.value ==> fs[j].id != id
    decreases |fs|
  {
    if fs == [] then None
    else if fs[0].id == id then Some(0)
    else match IndexOfId(fs[1..], id)
      case None => None
      case Some(i) => Some(i + 1)
  }

  /** `files.firstOrNull { it.id == fileId }?.thumbnailPath = thumbnail`. */
  function SetThumbnail(fs: seq<MediaFile>, id: int, thumbnail: string): (r: seq<MediaFile>)
    ensures IndexOfId(fs, id).None? ==> r == fs
    ensures IndexOfId(fs, id).Some? ==>
      var i := IndexOfId(fs, id).value;
      r == fs[i := fs[i].(thumbnailPath := Some(thumbnail))]
    decreases |fs|
  {
    if fs == [] then []
    else if fs[0].id == id then [fs[0].(thumbnailPath := Some(thumbnail))] + fs[1..]
    else [fs[0]] + SetThumbnail(fs[1..], id, thumbnail)
  }

  /**
   * The inner loop over `albumHashMap.values` for one thumbnail row: the first
   * album holding a file with that id has its first such file updated, and the
   * loop stops there.
   */
  function Attach(albums: seq<Album>, id: int, thumbnail: string): seq<Album>
    decreases |albums|
  {
    if albums == [] then []
    else if IndexOfId(albums[0].files, id).Some? then
      [albums[0].(files := SetThumbnail(albums[0].files, id, thumbnail))] + albums[1..]
    else [albums[0]] + Attach(albums[1..], id, thumbnail)
  }

  /** Some row of the cursor has a NULL `DATA`. */
  predicate HasNullData(rows: seq<ThumbRow>) {
    exists i :: 0 <= i < |rows| && rows[i].data.None?
  }

  /**
   * The outer loop over one thumbnail cursor; rows whose file does not exist
   * are skipped.  `None` when a NULL `DATA` makes `File(thumbnail)` throw.
   */
  function AttachRows(albums: seq<Album>, rows: seq<ThumbRow>, existing: set<string>): (r: Option<seq<Album>>)
    ensures r.None? <==> HasNullData(rows)
    decreases |rows|
  {
    if rows == [] then Some(albums)
    else
      match rows[0].data
      case None => None
      case Some(thumbnail) =>
        var next := if thumbnail in existing then Attach(albums, rows[0].fileId, thumbnail) else albums;
        var r := AttachRows(next, rows[1..], existing);
        assert HasNullData(rows) <==> HasNullData(rows[1..]) by {
          if HasNullData(rows[1..]) {
            var i :| 0 <= i < |rows[1..]| && rows[1..][i].data.None?;
            assert rows[i + 1].data.None?;
          }
          if HasNullData(rows) {
            var i :| 0 <= i < |rows| && rows[i].data.None?;
            assert rows[1..][i - 1].data.None?;
          }
        }
        r
  }

  /** A thumbnail cursor that is read throws on a NULL `DATA`. */
  predicate ThumbnailsThrow(store: MediaStore, withImages: bool, withVideos: bool) {
    || (withImages && store.imageThumbnails.Some? && HasNullData(store.imageThumbnails.value))
    || (withVideos && store.videoThumbnails.Some? && HasNullData(store.videoThumbnails.value))
  }

  /**
   * `fetchThumbnails`: the image thumbnail table when `withImages`, then the
   * video one when `withVideos`; `None` when either pass throws.
   */
  function FetchThumbnails(albums: seq<Album>, store: MediaStore, existing: set<string>,
                           withImages: bool, withVideos: bool): (r: Option<seq<Album>>)
    ensures r.None? <==> ThumbnailsThrow(store, withImages, withVideos)
  {
    var afterImages :=
      if withImages && store.imageThumbnails.Some? then AttachRows(albums, store.imageThumbnails.value, existing)
      else Some(albums);
    if afterImages.None? then None
    else if withVideos && store.videoThumbnails.Some? then AttachRows(afterImages.value, store.videoThumbnails.value, existing)
    else afterImages
  }

  /** The files with their thumbnail paths forgotten. */
  function Erased(fs: seq<MediaFile>): (r: seq<MediaFile>)
    ensures |r| == |fs|
    ensures forall i :: 0 <= i < |fs| ==> r[i] == fs[i].(thumbnailPath := None)
  {
    seq(|fs|, i requires 0 <= i < |fs| => fs[i].(thumbnailPath := None))
  }

  /** Two album maps agree on everything but the thumbnail paths of their files. */
  predicate SameShape(a: seq<Album>, b: seq<Album>) {
    |a| == |b| &&
    forall i :: 0 <= i < |a| ==> a[i].id == b[i].id && a[i].name == b[i].name && Erased(a[i].files) == Erased(b[i].files)
  }

  lemma SameShapeTransitive(a: seq<Album>, b: seq<Album>, c: seq<Album>)
    requires SameShape(a, b) && SameShape(b, c)
    ensures SameShape(a, c)
  {
  }

  lemma IndexOfIdCons(f: MediaFile, rest: seq<MediaFile>, id: int)
    ensures IndexOfId([f] + rest, id) ==
      if f.id == id then Some(0) else if IndexOfId(rest, id).Some? then Some(IndexOfId(rest, id).value + 1) else None
  {
    assert ([f] + rest)[1..] == rest;
  }

  /** The first file with the id in `s + t` is the first in `s`, or else the first in `t`. */
  lemma {:induction false} IndexOfIdAppend(s: seq<MediaFile>, t: seq<MediaFile>, id: int)
    ensures IndexOfId(s + t, id) ==
      if IndexOfId(s, id).Some? then IndexOfId(s, id)
      else if IndexOfId(t, id).Some? then Some(|s| + IndexOfId(t, id).value)
      else None
    decreases |s|
  {
    if s == [] {
      assert s + t == t;
    } else {
      var rest := s[1..];
      assert s == [s[0]] + rest;
      assert s + t == [s[0]] + (rest + t);
      IndexOfIdCons(s[0], rest, id);
      IndexOfIdCons(s[0], rest + t, id);
      IndexOfIdAppend(rest, t, id);
    }
  }

  lemma UpdateAppend(s: seq<MediaFile>, t: seq<MediaFile>, k: nat, x: MediaFile)
    requires k < |s| + |t|
    ensures k < |s| ==> (s + t)[k := x] == s[k := x] + t
    ensures k >= |s| ==> (s + t)[k := x] == s + t[k - |s| := x]
  {
  }

  lemma SetThumbnailAppend(s: seq<MediaFile>, t: seq<MediaFile>, id: int, thumbnail: string)
    ensures SetThumbnail(s + t, id, thumbnail) ==
      if IndexOfId(s, id).Some? then SetThumbnail(s, id, thumbnail) + t else s + SetThumbnail(t, id, thumbnail)
  {
    IndexOfIdAppend(s, t, id);
    match IndexOfId(s + t, id)
    case None =>
    case Some(k) =>
      UpdateAppend(s, t, k, (s + t)[k].(thumbnailPath := Some(thumbnail)));
  }

  lemma FlattenCons(a: Album, rest: seq<Album>)
    ensures Flatten([a] + rest) == a.files + Flatten(rest)
  {
    assert ([a] + rest)[1..] == rest;
  }

  /**
   * Attaching a thumbnail acts on the files of all albums, taken album by album,
   * exactly as setting it on the first file with that id.
   */
  lemma {:induction false} AttachFlatten(albums: seq<Album>, id: int, thumbnail: string)
    ensures Flatten(Attach(albums, id, thumbnail)) == SetThumbnail(Flatten(albums), id, thumbnail)
    decreases |albums|
  {
    if albums != [] {
      var head := albums[0];
      assert albums == [head] + albums[1..];
      FlattenCons(head, albums[1..]);
      SetThumbnailAppend(head.files, Flatten(albums[1..]), id, thumbnail);
      if IndexOfId(head.files, id).Some? {
        FlattenCons(head.(files := SetThumbnail(head.files, id, thumbnail)), albums[1..]);
      } else {
        AttachFlatten(albums[1..], id, thumbnail);
        FlattenCons(head, Attach(albums[1..], id, thumbnail));
      }
    }
  }

  lemma SetThumbnailErased(fs: seq<MediaFile>, id: int, thumbnail: string)
    ensures Erased(SetThumbnail(fs, id, thumbnail)) == Erased(fs)
  {
  }

  /** Attaching a thumbnail keeps every album's id and name, and every file but its thumbnail path. */
  lemma {:induction false} AttachShape(albums: seq<Album>, id: int, thumbnail: string)
    ensures SameShape(Attach(albums, id, thumbnail), albums)
    decreases |albums|
  {
    if albums != [] {
      var r := Attach(albums, id, thumbnail);
      if IndexOfId(albums[0].files, id).Some? {
        SetThumbnailErased(albums[0].files, id, thumbnail);
        assert r[1..] == albums[1..];
        assert forall i :: 1 <= i < |r| ==> r[i] == albums[i];
      } else {
        AttachShape(albums[1..], id, thumbnail);
        var tail := Attach(albums[1..], id, thumbnail);
        assert r == [albums[0]] + tail;
        assert forall i :: 1 <= i < |r| ==> r[i] == tail[i - 1];
      }
    }
  }

  lemma {:induction false} AttachRowsShape(albums: seq<Album>, rows: seq<ThumbRow>, existing: set<string>)
    ensures AttachRows(albums, rows, existing).Some? ==> SameShape(AttachRows(albums, rows, existing).value, albums)
    decreases |rows|
  {
    if rows != [] && rows[0].data.Some? {
      var thumbnail := rows[0].data.value;
      var next := if thumbnail in existing then Attach(albums, rows[0].fileId, thumbnail) else albums;
      if thumbnail in existing {
        AttachShape(albums, rows[0].fileId, thumbnail);
      }
      AttachRowsShape(next, rows[1..], existing);
      if AttachRows(next, rows[1..], existing).Some? {
        SameShapeTransitive(AttachRows(next, rows[1..], existing).value, next, albums);
      }
    }
  }

  /**
   * The thumbnail pass throws exactly when a cursor it reads has a NULL
   * `DATA`; otherwise it never adds, drops or renames an album, and changes
   * files only in their thumbnail paths.
   */
  lemma FetchThumbnailsShape(albums: seq<Album>, store: MediaStore, existing: set<string>,
                             withImages: bool, withVideos: bool)
    ensures var r := FetchThumbnails(albums, store, existing, withImages, withVideos);
      && (r.None? <==> ThumbnailsThrow(store, withImages, withVideos))
      && (r.Some? ==> SameShape(r.value, albums) && Ids(r.value) == Ids(albums))
  {
    var afterImages :=
      if withImages && store.imageThumbnails.Some? then AttachRows(albums, store.imageThumbnails.value, existing)
      else Some(albums);
    if withImages && store.imageThumbnails.Some? {
      AttachRowsShape(albums, store.imageThumbnails.value, existing);
    }
    if afterImages.Some? && withVideos && store.videoThumbnails.Some? {
      AttachRowsShape(afterImages.value, store.videoThumbnails.value, existing);
      if AttachRows(afterImages.value, store.videoThumbnails.value, existing).Some? {
        SameShapeTransitive(AttachRows(afterImages.value, store.videoThumbnails.value, existing).value, afterImages.value, albums);
      }
    }
  }

  /** Rows whose thumbnail file is missing change nothing; a NULL `DATA` still throws. */
  lemma {:induction false} MissingThumbnailsIgnored(albums: seq<Album>, rows: seq<ThumbRow>, existing: set<string>)
    requires forall i :: 0 <= i < |rows| && rows[i].data.Some? ==> rows[i].data.value !in existing
    ensures AttachRows(albums, rows, existing) == if HasNullData(rows) then None else Some(albums)
    decreases |rows|
  {
    if rows != [] && rows[0].data.Some? {
      MissingThumbnailsIgnored(albums, rows[1..], existing);
    }
  }

  lemma {:induction false} SetThumbnailTwice(fs: seq<MediaFile>, id: int, t1: string, t2: string)
    ensures SetThumbnail(SetThumbnail(fs, id, t1), id, t2) == SetThumbnail(fs, id, t2)
    decreases |fs|
  {
    if fs != [] {
      var once := SetThumbnail(fs, id, t1);
      assert once[0].id == fs[0].id;
      if fs[0].id == id {
        assert once[1..] == fs[1..];
      } else {
        assert once[1..] == SetThumbnail(fs[1..], id, t1);
        SetThumbnailTwice(fs[1..], id, t1, t2);
      }
    }
  }

  /** A later row for the same id overwrites the thumbnail an earlier row attached. */
  lemma {:induction false} AttachTwice(albums: seq<Album>, id: int, t1: string, t2: string)
    ensures Attach(Attach(albums, id, t1), id, t2) == Attach(albums, id, t2)
    decreases |albums|
  {
    if albums != [] {
      var head := albums[0];
      var once := Attach(albums, id, t1);
      if IndexOfId(head.files, id).Some? {
        var set1 := SetThumbnail(head.files, id, t1);
        assert once[0] == head.(files := set1) && once[1..] == albums[1..];
        assert IndexOfId(set1, id).Some? by {
          var i := IndexOfId(head.files, id).value;
          assert set1[i].id == id;
        }
        SetThumbnailTwice(head.files, id, t1, t2);
      } else {
        assert once[0] == head && once[1..] == Attach(albums[1..], id, t1);
        AttachTwice(albums[1..], id, t1, t2);
      }
    }
  }

  /** The request `generateThumbnail` makes of the OS. */
  datatype ThumbnailRequest =
    | LoadThumbnail(mediaType: MediaType, fileId: int, width: int, height: int)   // ContentResolver.loadThumbnail
    | MiniKind(mediaType: MediaType, fileId: int)                                 // Thumbnails.getThumbnail(MINI_KIND)

  /** Why `getThumbnail` throws. */
  datatype Failure =
    | UnableToGenerate      // the pre-Android-10 null bitmap: "Unable to generate thumbnail"
    | LoadThumbnailFailed   // the IOException of loadThumbnail on Android 10+

  /** The cache directory: `File(context.externalCacheDir, ".thumbnails")`, relative when there is no external cache. */
  function ThumbnailDir(externalCacheDir: Option<string>): string {
    match externalCacheDir
    case None => ".thumbnails"
    case Some(dir) => dir + "/.thumbnails"
  }

  /** `File(dir, "$fileId.jpg").path`: the key is the file id alone. */
  function ThumbnailPath(externalCacheDir: Option<string>, fileId: int): string {
    ThumbnailDir(externalCacheDir) + "/" + IntToString(fileId) + ".jpg"
  }

  /** Distinct files never share a cache path. */
  lemma ThumbnailPathInjective(externalCacheDir: Option<string>, a: int, b: int)
    ensures ThumbnailPath(externalCacheDir, a) == ThumbnailPath(externalCacheDir, b) <==> a == b
  {
    var prefix := ThumbnailDir(externalCacheDir) + "/";
    var pa := ThumbnailPath(externalCacheDir, a);
    var pb := ThumbnailPath(externalCacheDir, b);
    if pa == pb {
      assert pa == prefix + IntToString(a) + ".jpg";
      assert pb == prefix + IntToString(b) + ".jpg";
      assert |IntToString(a)| == |IntToString(b)|;
      assert IntToString(a) == pa[|prefix|..|pa| - 4];
      assert IntToString(b) == pb[|prefix|..|pb| - 4];
      IntToStringInjective(a, b);
    }
  }

  function GenerationRequest(sdk: int, fileId: int, mediaType: MediaType): ThumbnailRequest {
    if sdk >= Q then
      match mediaType
      case Image => LoadThumbnail(Image, fileId, 90, 90)
      case Video => LoadThumbnail(Video, fileId, 270, 270)
    else MiniKind(mediaType, fileId)
  }

  /** The result of `getThumbnail`, the files that exist afterwards, and the render request issued, if any. */
  datatype ThumbnailOutcome = ThumbnailOutcome(
    path: Result<string, Failure>,
    files: set<string>,
    request: Option<ThumbnailRequest>)

  /**
   * `getThumbnail` with `generateThumbnail`: a cache hit returns the path
   * without asking the OS; a miss asks for a thumbnail (90x90 for images and
   * 270x270 for videos on Android 10+, MINI_KIND before) and, when a bitmap
   * comes back, writes it and returns the same path; otherwise it throws.
   */
  function GetThumbnail(files: set<string>, externalCacheDir: Option<string>, fileId: int,
                        mediaType: MediaType, sdk: int, renders: ThumbnailRequest -> bool): (r: ThumbnailOutcome)
    ensures var path := ThumbnailPath(externalCacheDir, fileId);
            path in files ==> r == ThumbnailOutcome(Success(path), files, None)
    ensures var path := ThumbnailPath(externalCacheDir, fileId);
            path !in files ==> r.request.Some? && (r.path.Success? <==> renders(r.request.value))
    ensures r.path.Success? ==> r.path.value == ThumbnailPath(externalCacheDir, fileId) && r.path.value in r.files
    ensures r.path.Success? ==> r.files == files + {r.path.value}
    ensures r.path.Failure? ==> r.files == files && r.path.error == (if sdk >= Q then LoadThumbnailFailed else UnableToGenerate)
    ensures r.request.Some? && sdk >= Q ==>
      r.request.value == (if mediaType == Image then LoadThumbnail(Image, fileId, 90, 90) else LoadThumbnail(Video, fileId, 270, 270))
    ensures r.request.Some? && sdk < Q ==> r.request.value == MiniKind(mediaType, fileId)
  {
    var path := ThumbnailPath(externalCacheDir, fileId);
    if path in files then ThumbnailOutcome(Success(path), files, None)
    else
      var request := GenerationRequest(sdk, fileId, mediaType);
      if renders(request) then ThumbnailOutcome(Success(path), files + {path}, Some(request))
      else ThumbnailOutcome(Failure(if sdk >= Q then LoadThumbnailFailed else UnableToGenerate), files, Some(request))
  }

  /** A second call right after a successful one is a hit: same path, no render request, nothing written. */
  lemma GetThumbnailTwice(files: set<string>, externalCacheDir: Option<string>, fileId: int,
                          mediaType: MediaType, sdk: int, renders: ThumbnailRequest -> bool,
                          renders2: ThumbnailRequest -> bool)
    requires GetThumbnail(files, externalCacheDir, fileId, mediaType, sdk, renders).path.Success?
    ensures var first := GetThumbnail(files, externalCacheDir, fileId, mediaType, sdk, renders);
            GetThumbnail(first.files, externalCacheDir, fileId, mediaType, sdk, renders2)
              == ThumbnailOutcome(first.path, first.files, None)
  {
  }
}
