/** `TorrentData` (`service/torrent/torrentData.ts`): a view over a webtorrent torrent.
    The torrent itself, its peers and its download are outside the model; what is kept
    is the part of its state the view reads. */
module TorrentFiles {
  import opened Seqs
  import Paths

  /** A file of a torrent as webtorrent reports it. */
  datatype TorrentFile = TorrentFile(name: string, path: string, progress: real, downloaded: int, length: int)

  /** The torrent state the view reads: its download directory, its files and its
      fractional progress. */
  datatype Torrent = Torrent(path: string, files: seq<TorrentFile>, progress: real)

  /** `TorrentFileData`: a file offered to the user. */
  datatype TorrentFileData = TorrentFileData(path: string, name: string, progress: real, downloaded: int, size: int)

  /** The `progress` getter: the torrent's fraction as a percentage. */
  function Progress(t: Torrent): (r: real)
    ensures 0.0 <= t.progress <= 1.0 ==> 0.0 <= r <= 100.0
    ensures r == 0.0 <==> t.progress == 0.0
  {
    t.progress * 100.0
  }

  /** Whether a file's extension is one of the category's. */
  predicate Wanted(file: TorrentFile, ext: seq<string>) {
    Paths.ExtName(file.name) in ext
  }

  /** What `getFiles` records for a kept file. */
  function FileData(t: Torrent, file: TorrentFile): (d: TorrentFileData)
    ensures d.name == file.name && d.path == Paths.Join(t.path, file.path)
    ensures d.downloaded == file.downloaded && d.size == file.length
  {
    TorrentFileData(Paths.Join(t.path, file.path), file.name, file.progress * 100.0, file.downloaded, file.length)
  }

  /** The files `getFiles` keeps out of `files`, in order, `keep` being the extension
      test. */
  function Selected(t: Torrent, files: seq<TorrentFile>, keep: TorrentFile -> bool): seq<TorrentFileData>
    decreases |files|
  {
    if files == [] then []
    else
      var last := files[|files| - 1];
      Selected(t, files[..|files| - 1], keep) + if keep(last) then [FileData(t, last)] else []
  }

  /** The extension test of a category. */
  function Keep(ext: seq<string>): TorrentFile -> bool {
    (f: TorrentFile) => Wanted(f, ext)
  }

  /** `getFiles`: the data of each file whose extension the category lists, in torrent
      order. */
  method GetFiles(t: Torrent, ext: seq<string>) returns (result: seq<TorrentFileData>)
    ensures result == Selected(t, t.files, Keep(ext))
  {
    result := [];
    var keep := Keep(ext);
    for i := 0 to |t.files|
      invariant result == Selected(t, t.files[..i], keep)
    {
      var file := t.files[i];
      SelectedSnoc(t, t.files, i, keep);
      if !keep(file) {
        continue;
      }
      result := result + [FileData(t, file)];
    }
    assert t.files[..|t.files|] == t.files;
  }

  lemma SelectedSnoc(t: Torrent, files: seq<TorrentFile>, i: nat, keep: TorrentFile -> bool)
    requires i < |files|
    ensures Selected(t, files[..i + 1], keep) == Selected(t, files[..i], keep) + if keep(files[i]) then [FileData(t, files[i])] else []
  {
    assert files[..i + 1][..i] == files[..i];
  }

  /** The kept files are exactly the wanted ones, in order, so there are never more of
      them than the torrent has. */
  lemma {:induction false} SelectedIsFilter(t: Torrent, files: seq<TorrentFile>, keep: TorrentFile -> bool)
    ensures var kept := Filter(files, keep);
      |Selected(t, files, keep)| == |kept| <= |files| &&
      forall i :: 0 <= i < |kept| ==> Selected(t, files, keep)[i] == FileData(t, kept[i])
    decreases |files|
  {
    if files != [] {
      var init, last := files[..|files| - 1], files[|files| - 1];
      SelectedIsFilter(t, init, keep);
      assert files == init + [last];
      FilterAppend(init, [last], keep);
      assert Filter([last], keep) == if keep(last) then [last] else [];
    }
  }

  /** No file is offered when none has a listed extension. */
  lemma {:induction false} SelectedEmpty(t: Torrent, files: seq<TorrentFile>, keep: TorrentFile -> bool)
    ensures Selected(t, files, keep) == [] <==> forall i :: 0 <= i < |files| ==> !keep(files[i])
    decreases |files|
  {
    if files != [] {
      var init := files[..|files| - 1];
      SelectedEmpty(t, init, keep);
      if forall i :: 0 <= i < |init| ==> !keep(init[i]) {
        assert forall i :: 0 <= i < |files| - 1 ==> files[i] == init[i];
      } else {
        var i :| 0 <= i < |init| && keep(init[i]);
        assert files[i] == init[i];
      }
    }
  }
}
