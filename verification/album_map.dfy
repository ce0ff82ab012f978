/**
 * The `LinkedHashMap<Long, Album>` that `getAlbums` fills, and the grouping
 * loop of `fetchImages` / `fetchVideos` that fills it.
 *
 * The map is a sequence of albums in insertion order; an album's key is its
 * `id` (every album is created as `Album(file.albumId, ...)` under the key
 * `file.albumId`), so `Get` is the map lookup and `Ids` the key order.
 */
module AlbumMap {
  import opened Wrappers
  import opened AndroidModel

  /** The map's keys, in iteration (= first insertion) order. */
  function Ids(albums: seq<Album>): (ks: seq<int>)
    ensures |ks| == |albums|
    ensures forall i :: 0 <= i < |albums| ==> ks[i] == albums[i].id
  {
    if albums == [] then [] else [albums[0].id] + Ids(albums[1..])
  }

  predicate Distinct(ks: seq<int>) {
    forall i, j :: 0 <= i < j < |ks| ==> ks[i] != ks[j]
  }

  /** No key occurs twice: the sequence really is a map. */
  predicate DistinctIds(albums: seq<Album>) {
    Distinct(Ids(albums))
  }

  /** Every file of the album has the album's key as its `albumId`. */
  predicate FilesKeyed(a: Album) {
    forall j :: 0 <= j < |a.files| ==> a.files[j].albumId == a.id
  }

  /** Every file sits in the album whose key is the file's `albumId`. */
  predicate Keyed(albums: seq<Album>) {
    forall i :: 0 <= i < |albums| ==> FilesKeyed(albums[i])
  }

  /** `albumHashMap[k]`. */
  function Get(albums: seq<Album>, k: int): (r: Option<Album>)
    ensures r.Some? <==> k in Ids(albums)
    ensures r.Some? ==> r.value.id == k && r.value in albums
  {
    if albums == [] then None
    else if albums[0].id == k then Some(albums[0])
    else Get(albums[1..], k)
  }

  /** The files of album `k`, empty when there is no such album. */
  function FilesOf(albums: seq<Album>, k: int): seq<MediaFile> {
    match Get(albums, k)
    case None => []
    case Some(a) => a.files
  }

  /** All files of all albums, album by album in iteration order. */
  function Flatten(albums: seq<Album>): seq<MediaFile> {
    if albums == [] then [] else albums[0].files + Flatten(albums[1..])
  }

  /** The subsequence of `fs` whose album id is `k`. */
  function InAlbum(fs: seq<MediaFile>, k: int): (r: seq<MediaFile>)
    ensures forall f :: f in r ==> f in fs && f.albumId == k
  {
    if fs == [] then []
    else (if fs[0].albumId == k then [fs[0]] else []) + InAlbum(fs[1..], k)
  }

  function AlbumIdsOf(fs: seq<MediaFile>): (ks: seq<int>)
    ensures |ks| == |fs|
    ensures forall i :: 0 <= i < |fs| ==> ks[i] == fs[i].albumId
  {
    if fs == [] then [] else [fs[0].albumId] + AlbumIdsOf(fs[1..])
  }

  lemma AlbumIdsOfAppend(fs: seq<MediaFile>, gs: seq<MediaFile>)
    ensures AlbumIdsOf(fs + gs) == AlbumIdsOf(fs) + AlbumIdsOf(gs)
  {
  }

  /** The keys `ks`, followed by each key of `xs` not seen before, in order of first occurrence. */
  function InsertionOrder(ks: seq<int>, xs: seq<int>): seq<int>
    decreases |xs|
  {
    if xs == [] then ks
    else InsertionOrder(if xs[0] in ks then ks else ks + [xs[0]], xs[1..])
  }

  /**
   * The album an existing entry becomes after the files `group`, all with album
   * id `k`, have been added to it: a missing entry is created from the first of
   * them (carrying that file's album name), an existing one gets them appended.
   */
  function Grouped(entry: Option<Album>, k: int, group: seq<MediaFile>): Option<Album> {
    match entry
    case Some(a) => Some(a.(files := a.files + group))
    case None => if group == [] then None else Some(Album(k, group[0].albumName, group))
  }

  /** One iteration of the grouping loop (ImageFileProvider.kt:47-57, VideoFileProvider.kt:99-110). */
  function AddFile(albums: seq<Album>, f: MediaFile): seq<Album>
  {
    if albums == [] then
      [Album(f.albumId, f.albumName, [f])]
    else if albums[0].id == f.albumId then
      [albums[0].(files := albums[0].files + [f])] + albums[1..]
    else
      [albums[0]] + AddFile(albums[1..], f)
  }

  lemma Cons(a: Album, rest: seq<Album>)
    ensures ([a] + rest)[1..] == rest
    ensures Ids([a] + rest) == [a.id] + Ids(rest)
    ensures Flatten([a] + rest) == a.files + Flatten(rest)
    ensures forall k :: Get([a] + rest, k) == if a.id == k then Some(a) else Get(rest, k)
  {
    assert ([a] + rest)[1..] == rest;
  }

  /** Adding a file to the map: the key order gains its album id if that id is new. */
  lemma {:induction false} AddFileIds(albums: seq<Album>, f: MediaFile)
    ensures Ids(AddFile(albums, f)) == if f.albumId in Ids(albums) then Ids(albums) else Ids(albums) + [f.albumId]
  {
    if albums == [] {
    } else {
      Cons(albums[0], albums[1..]);
      assert albums == [albums[0]] + albums[1..];
      if albums[0].id == f.albumId {
        Cons(albums[0].(files := albums[0].files + [f]), albums[1..]);
      } else {
        AddFileIds(albums[1..], f);
        Cons(albums[0], AddFile(albums[1..], f));
      }
    }
  }

  /** Adding a file to the map: only the entry of its album id changes, and it changes as `Grouped` says. */
  lemma {:induction false} AddFileGet(albums: seq<Album>, f: MediaFile, k: int)
    ensures Get(AddFile(albums, f), k) == Grouped(Get(albums, k), k, if k == f.albumId then [f] else [])
  {
    if albums == [] {
      Cons(Album(f.albumId, f.albumName, [f]), []);
    } else {
      Cons(albums[0], albums[1..]);
      assert albums == [albums[0]] + albums[1..];
      if albums[0].id == f.albumId {
        Cons(albums[0].(files := albums[0].files + [f]), albums[1..]);
        if k != f.albumId {
          match Get(albums, k)
          case Some(a) => assert a.files + [] == a.files;
          case None =>
        }
      } else {
        AddFileGet(albums[1..], f, k);
        Cons(albums[0], AddFile(albums[1..], f));
        if k == albums[0].id {
          assert albums[0].files + [] == albums[0].files;
        }
      }
    }
  }

  /** One iteration adds exactly its file. */
  lemma {:induction false} AddFileFlatten(albums: seq<Album>, f: MediaFile)
    ensures multiset(Flatten(AddFile(albums, f))) == multiset(Flatten(albums)) + multiset{f}
  {
    if albums == [] {
      Cons(Album(f.albumId, f.albumName, [f]), []);
    } else {
      Cons(albums[0], albums[1..]);
      assert albums == [albums[0]] + albums[1..];
      if albums[0].id == f.albumId {
        Cons(albums[0].(files := albums[0].files + [f]), albums[1..]);
        assert multiset(albums[0].files + [f]) == multiset(albums[0].files) + multiset{f};
      } else {
        AddFileFlatten(albums[1..], f);
        Cons(albums[0], AddFile(albums[1..], f));
      }
    }
  }

  lemma KeyedCons(a: Album, rest: seq<Album>)
    ensures Keyed([a] + rest) <==> FilesKeyed(a) && Keyed(rest)
  {
    var all := [a] + rest;
    if FilesKeyed(a) && Keyed(rest) {
      forall i | 0 <= i < |all| ensures FilesKeyed(all[i]) {
        if i > 0 { assert all[i] == rest[i - 1]; }
      }
    }
    if Keyed(all) {
      assert all[0] == a;
      forall i | 0 <= i < |rest| ensures FilesKeyed(rest[i]) {
        assert rest[i] == all[i + 1];
      }
    }
  }

  /** One iteration keeps every file under its own album id. */
  lemma {:induction false} AddFileKeyed(albums: seq<Album>, f: MediaFile)
    ensures Keyed(albums) ==> Keyed(AddFile(albums, f))
  {
    if albums == [] {
      KeyedCons(Album(f.albumId, f.albumName, [f]), []);
    } else {
      assert albums == [albums[0]] + albums[1..];
      KeyedCons(albums[0], albums[1..]);
      if albums[0].id == f.albumId {
        KeyedCons(albums[0].(files := albums[0].files + [f]), albums[1..]);
      } else {
        AddFileKeyed(albums[1..], f);
        KeyedCons(albums[0], AddFile(albums[1..], f));
      }
    }
  }

  lemma DistinctAppend(ks: seq<int>, k: int)
    requires Distinct(ks) && k !in ks
    ensures Distinct(ks + [k])
  {
    var r := ks + [k];
    forall i, j | 0 <= i < j < |r| ensures r[i] != r[j] {
      assert r[i] == ks[i];
      if j < |ks| { assert r[j] == ks[j]; }
    }
  }

  /** One iteration keeps the map well formed: keys distinct, every file under its own album id. */
  lemma AddFileWellFormed(albums: seq<Album>, f: MediaFile)
    ensures Keyed(albums) ==> Keyed(AddFile(albums, f))
    ensures DistinctIds(albums) ==> DistinctIds(AddFile(albums, f))
  {
    AddFileKeyed(albums, f);
    AddFileIds(albums, f);
    if f.albumId !in Ids(albums) && DistinctIds(albums) {
      DistinctAppend(Ids(albums), f.albumId);
    }
  }

  /** The whole grouping loop over the files of one cursor. */
  function AddFiles(albums: seq<Album>, fs: seq<MediaFile>): seq<Album>
    decreases |fs|
  {
    if fs == [] then albums else AddFiles(AddFile(albums, fs[0]), fs[1..])
  }

  lemma GroupedTwice(entry: Option<Album>, k: int, g1: seq<MediaFile>, g2: seq<MediaFile>)
    ensures Grouped(Grouped(entry, k, g1), k, g2) == Grouped(entry, k, g1 + g2)
  {
    if entry.None? && g1 == [] {
      assert g1 + g2 == g2;
    } else if entry.Some? {
      assert entry.value.files + g1 + g2 == entry.value.files + (g1 + g2);
    }
  }

  /**
   * After the loop, album `k` is what it was with every file of album id `k`
   * appended in cursor order: a new album is seeded with the first such file,
   * an existing one keeps its earlier files as a prefix.
   */
  lemma {:induction false} AddFilesGet(albums: seq<Album>, fs: seq<MediaFile>, k: int)
    ensures Get(AddFiles(albums, fs), k) == Grouped(Get(albums, k), k, InAlbum(fs, k))
    decreases |fs|
  {
    if fs == [] {
      assert InAlbum(fs, k) == [];
      match Get(albums, k)
      case Some(a) => assert a.files + [] == a.files;
      case None =>
    } else {
      var step := AddFile(albums, fs[0]);
      AddFileGet(albums, fs[0], k);
      AddFilesGet(step, fs[1..], k);
      var g1 := if k == fs[0].albumId then [fs[0]] else [];
      assert InAlbum(fs, k) == g1 + InAlbum(fs[1..], k);
      GroupedTwice(Get(albums, k), k, g1, InAlbum(fs[1..], k));
    }
  }

  /** The files of album `k` after the loop: its old files, then the new ones of that album id. */
  lemma AddFilesContents(albums: seq<Album>, fs: seq<MediaFile>, k: int)
    ensures FilesOf(AddFiles(albums, fs), k) == FilesOf(albums, k) + InAlbum(fs, k)
  {
    AddFilesGet(albums, fs, k);
    if Get(albums, k).None? && InAlbum(fs, k) == [] {
      assert FilesOf(albums, k) + InAlbum(fs, k) == [];
    }
  }

  /** Albums appear in the order their keys were first met. */
  lemma {:induction false} AddFilesIds(albums: seq<Album>, fs: seq<MediaFile>)
    ensures Ids(AddFiles(albums, fs)) == InsertionOrder(Ids(albums), AlbumIdsOf(fs))
    decreases |fs|
  {
    if fs != [] {
      AddFileIds(albums, fs[0]);
      AddFilesIds(AddFile(albums, fs[0]), fs[1..]);
      assert AlbumIdsOf(fs)[1..] == AlbumIdsOf(fs[1..]);
    }
  }

  /** No file is lost or duplicated by the loop. */
  lemma {:induction false} AddFilesFlatten(albums: seq<Album>, fs: seq<MediaFile>)
    ensures multiset(Flatten(AddFiles(albums, fs))) == multiset(Flatten(albums)) + multiset(fs)
    decreases |fs|
  {
    if fs != [] {
      var next := AddFile(albums, fs[0]);
      var last := AddFiles(next, fs[1..]);
      assert AddFiles(albums, fs) == last;
      assert multiset(Flatten(next)) == multiset(Flatten(albums)) + multiset{fs[0]} by {
        AddFileFlatten(albums, fs[0]);
      }
      assert multiset(Flatten(last)) == multiset(Flatten(next)) + multiset(fs[1..]) by {
        AddFilesFlatten(next, fs[1..]);
      }
      assert multiset(fs) == multiset{fs[0]} + multiset(fs[1..]) by {
        assert fs == [fs[0]] + fs[1..];
      }
    }
  }

  /** The loop keeps the map well formed: distinct keys, each file under its own album id. */
  lemma {:induction false} AddFilesWellFormed(albums: seq<Album>, fs: seq<MediaFile>)
    requires DistinctIds(albums) && Keyed(albums)
    ensures DistinctIds(AddFiles(albums, fs)) && Keyed(AddFiles(albums, fs))
    decreases |fs|
  {
    if fs != [] {
      AddFileWellFormed(albums, fs[0]);
      AddFilesWellFormed(AddFile(albums, fs[0]), fs[1..]);
    }
  }

  /** Running the loop over two cursors in turn is running it over their concatenation. */
  lemma {:induction false} AddFilesAppend(albums: seq<Album>, fs: seq<MediaFile>, gs: seq<MediaFile>)
    ensures AddFiles(albums, fs + gs) == AddFiles(AddFiles(albums, fs), gs)
    decreases |fs|
  {
    if fs == [] {
      assert fs + gs == gs;
    } else {
      assert (fs + gs)[0] == fs[0];
      assert (fs + gs)[1..] == fs[1..] + gs;
      AddFilesAppend(AddFile(albums, fs[0]), fs[1..], gs);
    }
  }

  /** `InsertionOrder` keeps `ks` as a prefix, adds exactly the keys of `xs`, and never repeats one. */
  lemma {:induction false} InsertionOrderShape(ks: seq<int>, xs: seq<int>)
    ensures |InsertionOrder(ks, xs)| >= |ks| && InsertionOrder(ks, xs)[..|ks|] == ks
    ensures forall x :: x in InsertionOrder(ks, xs) <==> x in ks || x in xs
    ensures Distinct(ks) ==> Distinct(InsertionOrder(ks, xs))
    decreases |xs|
  {
    if xs != [] {
      var next := if xs[0] in ks then ks else ks + [xs[0]];
      InsertionOrderShape(next, xs[1..]);
      assert next[..|ks|] == ks;
      assert forall x :: x in xs <==> x == xs[0] || x in xs[1..];
    }
  }
}
