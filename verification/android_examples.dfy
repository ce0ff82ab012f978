/** A concrete run of the Android `getAlbums` pipeline. */
module AndroidExamples {
  import opened Wrappers
  import opened AndroidModel
  import opened AlbumMap
  import opened ImageFileProvider
  import opened StableSort
  import opened ThumbnailImageProvider
  import opened AndroidFileFetcher

  /** Three images in buckets 10, 20, 10 added at 100, 300 and 200. */
  function Rows(): seq<ImageRow> {
    [ImageRow(1, 100, "/sdcard/DCIM/1.jpg", "A", 10, 0, "image/jpeg"),
     ImageRow(2, 300, "/sdcard/DCIM/2.jpg", "B", 20, 0, "image/jpeg"),
     ImageRow(3, 200, "/sdcard/DCIM/3.jpg", "A", 10, 0, "image/jpeg")]
  }

  function File(i: nat): MediaFile
    requires i < 3
  {
    CursorToMediaFile(Rows()[i])
  }

  function Store(): MediaStore {
    MediaStore(Some(Rows()), None, None, None)
  }

  lemma ExampleGrouping()
    ensures Unsorted(Store(), Q, {}, true, false, None, None)
         == Some([Album(10, "", [File(0), File(2)]), Album(20, "", [File(1)])])
  {
    var f1, f2, f3 := File(0), File(1), File(2);
    assert ImageFiles(Store().images) == [f1, f2, f3];
    var g1 := AddFile([], f1);
    assert g1 == [Album(10, "", [f1])];
    var g2 := AddFile(g1, f2);
    assert g1[1..] == [] && AddFile([], f2) == [Album(20, "", [f2])];
    assert g2 == [Album(10, "", [f1]), Album(20, "", [f2])];
    var g3 := AddFile(g2, f3);
    assert g2[0].id == f3.albumId && g2[1..] == [Album(20, "", [f2])];
    assert [f1] + [f3] == [f1, f3];
    assert g3 == [Album(10, "", [f1, f3]), Album(20, "", [f2])];
    assert [f1, f2, f3][1..] == [f2, f3];
    assert [f2, f3][1..] == [f3];
    assert [f3][1..] == [];
    assert AddFiles(g3, []) == g3;
    assert AddFiles(g2, [f3]) == g3;
    assert AddFiles(g1, [f2, f3]) == g3;
    assert AddFiles([], [f1, f2, f3]) == g3;
  }

  lemma ExampleSort()
    ensures SortByDescendingDate([File(0), File(2)]) == [File(2), File(0)]
    ensures SortByDescendingDate([File(1)]) == [File(1)]
  {
    var f1, f2, f3 := File(0), File(1), File(2);
    assert SortByDescendingDate([f3]) == [f3];
    assert [f1, f3][1..] == [f3];
    assert Insert(f1, [f3]) == [f3, f1];
    assert SortByDescendingDate([f2]) == [f2];
  }

  /**
   * Bucket 10 comes first because its file was seen first, its files are
   * newest first, and images carry an empty album name.
   */
  lemma ThreeImagesInTwoAlbums()
    ensures GetAlbums(Store(), Q, {}, true, false, None, None)
         == Some([Album(10, "", [File(2), File(0)]), Album(20, "", [File(1)])])
    ensures File(2).id == 3 && File(0).id == 1 && File(1).id == 2
  {
    var u := Unsorted(Store(), Q, {}, true, false, None, None);
    var grouped := [Album(10, "", [File(0), File(2)]), Album(20, "", [File(1)])];
    assert u == Some(grouped) by {
      ExampleGrouping();
    }
    var sorted := SortAlbums(grouped);
    assert GetAlbums(Store(), Q, {}, true, false, None, None) == Some(sorted);
    assert sorted[0] == grouped[0].(files := SortByDescendingDate(grouped[0].files));
    assert sorted[1] == grouped[1].(files := SortByDescendingDate(grouped[1].files));
    assert sorted == [Album(10, "", [File(2), File(0)]), Album(20, "", [File(1)])] by {
      ExampleSort();
    }
  }

  /** A video file with id 5 in album 7. */
  function Video5(): MediaFile {
    MediaFile(5, 7, "Camera", 100, "/sdcard/DCIM/5.mp4", None, 0, "video/mp4", Some(2.0), Video)
  }

  /** Thumbnails are matched by id only: a row of the image thumbnail table lands on a video with that id. */
  lemma ImageThumbnailOnVideo()
    ensures var store := MediaStore(None, None, Some([ThumbRow(5, Some("/thumbs/5.jpg"))]), None);
      FetchThumbnails([Album(7, "Camera", [Video5()])], store, {"/thumbs/5.jpg"}, true, false)
      == Some([Album(7, "Camera", [Video5().(thumbnailPath := Some("/thumbs/5.jpg"))])])
  {
    var albums := [Album(7, "Camera", [Video5()])];
    var attached := [Album(7, "Camera", [Video5().(thumbnailPath := Some("/thumbs/5.jpg"))])];
    assert IndexOfId([Video5()], 5) == Some(0);
    assert SetThumbnail([Video5()], 5, "/thumbs/5.jpg") == [Video5().(thumbnailPath := Some("/thumbs/5.jpg"))];
    assert albums[1..] == [];
    assert Attach(albums, 5, "/thumbs/5.jpg") == attached;
    assert [ThumbRow(5, Some("/thumbs/5.jpg"))][1..] == [];
    assert AttachRows(albums, [ThumbRow(5, Some("/thumbs/5.jpg"))], {"/thumbs/5.jpg"}) == Some(attached);
  }
}
