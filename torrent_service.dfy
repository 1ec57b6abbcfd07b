/** `TorrentService` (`service/torrent/torrentService.ts`): the torrents this process is
    downloading, keyed by the SHA-256 digest of their magnet link, and the persisted
    `downloads` record that lets them be restarted after a restart. The torrent client
    is outside the model: how an add ends (no peers, or metadata listing the torrent's
    files) is a parameter, and each asynchronous step is one method. */
module TorrentService {
  import opened Wrappers
  import opened Dict
  import opened Seqs
  import opened TorrentFiles
  import Paths

  /** `TorrentStoredData`: what is persisted for a download. */
  datatype StoredData = StoredData(name: string, category: string, dir: Option<string>, magnet: string,
                                   data: map<string, string>)

  /** The `TorrentData` handle of a started download: its digest and its data. */
  datatype Download = Download(id: string, stored: StoredData)

  /** `"success"` (`Started`) or `"already_downloading"` */
  datatype DownloadStatus = Started | AlreadyDownloading

  /** `DownloadResult` */
  datatype DownloadResult = DownloadResult(result: DownloadStatus, data: Download)

  /** The first event of a newly added torrent: no peers were found, or its metadata
      arrived. */
  datatype AddEvent = NoPeers | Metadata(torrent: Torrent)

  const NoSuitableFiles := "no suitable files"

  /** `_markTorrentAsDownloading` on the stored record: an entry that is already there is
      not overwritten. */
  function MarkedDownloading(downloads: seq<Entry<string, StoredData>>, hash: string, stored: StoredData): seq<Entry<string, StoredData>> {
    if Has(downloads, hash) then downloads else Put(downloads, hash, stored)
  }

  /** `_markTorrentAsDownloaded` on the stored record: the entry is deleted when it is
      there. */
  function MarkedDownloaded(downloads: seq<Entry<string, StoredData>>, hash: string): seq<Entry<string, StoredData>> {
    if Has(downloads, hash) then Remove(downloads, hash) else downloads
  }

  /** Marking a download stores it only when its digest has no entry, and touches no
      other digest. */
  lemma MarkedDownloadingFind(downloads: seq<Entry<string, StoredData>>, hash: string, stored: StoredData, k: string)
    ensures Find(MarkedDownloading(downloads, hash, stored), k) ==
      if k == hash && !Has(downloads, hash) then Some(stored) else Find(downloads, k)
  {
    if !Has(downloads, hash) {
      PutFind(downloads, hash, stored, k);
    }
  }

  /** Marking a download finished deletes its digest's entry and nothing else. */
  lemma MarkedDownloadedFind(downloads: seq<Entry<string, StoredData>>, hash: string, k: string)
    ensures Find(MarkedDownloaded(downloads, hash), k) == if k == hash then None else Find(downloads, k)
  {
    if Has(downloads, hash) {
      RemoveFind(downloads, hash, k);
    }
  }

  /** Where a finished download's files are saved: `MANAGED_DIR/category/name`, then the
      requested sub-directory when one is given (an empty one counts as none). */
  function Destination(managedDir: string, stored: StoredData): (r: string)
    ensures stored.dir.None? || stored.dir.value == "" ==> r == Paths.Join(Paths.Join(managedDir, stored.category), stored.name)
    ensures stored.dir.Some? && stored.dir.value != "" ==>
      r == Paths.Join(Paths.Join(Paths.Join(managedDir, stored.category), stored.name), stored.dir.value)
  {
    var base := Paths.Join(Paths.Join(managedDir, stored.category), stored.name);
    if stored.dir.Some? && stored.dir.value != "" then Paths.Join(base, stored.dir.value) else base
  }

  /** A sub-directory given as one path segment is the last segment of the destination,
      under the download's own directory. */
  lemma DestinationParse(managedDir: string, stored: StoredData)
    requires stored.dir.Some? && stored.dir.value != "" && '/' !in stored.dir.value
    ensures Paths.Base(Destination(managedDir, stored)) == stored.dir.value
    ensures Paths.Dir(Destination(managedDir, stored)) == Paths.Join(Paths.Join(managedDir, stored.category), stored.name)
  {
    Paths.JoinParse(Paths.Join(Paths.Join(managedDir, stored.category), stored.name), stored.dir.value);
  }

  /** Whether an add ends in success: with no peers it resolves; with metadata it
      resolves only when some file has one of the category's extensions. */
  predicate AddSucceeds(event: AddEvent, ext: seq<string>) {
    event.NoPeers? || Selected(event.torrent, event.torrent.files, Keep(ext)) != []
  }

  /** The digests `restoreDownloading` starts again: the stored ones not already
      downloading here, in store order. */
  function Restarted(keys: seq<string>, processed: map<string, Download>): seq<string> {
    Filter(keys, (k: string) => k !in processed)
  }

  class TorrentService {
    /** `processed`: the downloads started by `download` and not yet done. */
    var processed: map<string, Download>
    /** The persisted `downloads` record. */
    var downloads: seq<Entry<string, StoredData>>
    /** The SHA-256 digest of a magnet link. */
    const hash: string -> string
    /** The extensions of each category (`CONFIG.categories[c].ext`). */
    const categoryExt: string -> seq<string>
    /** `MANAGED_DIR` */
    const managedDir: string

    ghost predicate Valid()
      reads this
    {
      UniqueKeys(downloads)
    }

    constructor (hash: string -> string, categoryExt: string -> seq<string>, managedDir: string,
                 downloads: seq<Entry<string, StoredData>>)
      requires UniqueKeys(downloads)
      ensures Valid()
      ensures this.hash == hash && this.categoryExt == categoryExt && this.managedDir == managedDir
      ensures processed == map[] && this.downloads == downloads
    {
      this.hash := hash;
      this.categoryExt := categoryExt;
      this.managedDir := managedDir;
      this.downloads := downloads;
      processed := map[];
    }

    /** `_markTorrentAsDownloading` */
    method MarkDownloading(hash: string, stored: StoredData)
      requires Valid()
      modifies this
      ensures Valid()
      ensures downloads == MarkedDownloading(old(downloads), hash, stored)
      ensures processed == old(processed)
    {
      if Has(downloads, hash) {
        return;
      }
      PutUnique(downloads, hash, stored);
      downloads := Put(downloads, hash, stored);
    }

    /** `_markTorrentAsDownloaded` */
    method MarkDownloaded(hash: string)
      requires Valid()
      modifies this
      ensures Valid()
      ensures downloads == MarkedDownloaded(old(downloads), hash)
      ensures processed == old(processed)
    {
      if Has(downloads, hash) {
        RemoveUnique(downloads, hash);
        downloads := Remove(downloads, hash);
      }
    }

    /** `_addToDownload`: the download is recorded in the store as soon as it is added,
        and the add then succeeds or, when the metadata lists no file of the category,
        fails; the stored entry stays either way. */
    method AddToDownload(hash: string, stored: StoredData, event: AddEvent) returns (r: Result<Download, string>)
      requires Valid()
      modifies this
      ensures Valid()
      ensures downloads == MarkedDownloading(old(downloads), hash, stored) && processed == old(processed)
      ensures r.Success? <==> AddSucceeds(event, categoryExt(stored.category))
      ensures r.Success? ==> r.value == Download(hash, stored)
    {
      MarkDownloading(hash, stored);
      if event.Metadata? {
        var files := GetFiles(event.torrent, categoryExt(stored.category));
        if |files| == 0 {
          return Failure(NoSuitableFiles);
        }
      }
      r := Result.Success(Download(hash, stored));
    }

    /** `download`: a magnet whose digest is already downloading returns that download
        and changes nothing; otherwise the torrent is added, and when the add succeeds
        its digest maps to the new download. */
    method StartDownload(stored: StoredData, event: AddEvent) returns (r: Result<DownloadResult, string>)
      requires Valid()
      modifies this
      ensures Valid()
      ensures var id := hash(stored.magnet);
        && (id in old(processed) ==>
              r == Result.Success(DownloadResult(AlreadyDownloading, old(processed)[id])) && unchanged(this))
        && (id !in old(processed) ==>
              && downloads == MarkedDownloading(old(downloads), id, stored)
              && (r.Success? <==> AddSucceeds(event, categoryExt(stored.category)))
              && (r.Success? ==> r.value == DownloadResult(Started, Download(id, stored)) &&
                                 processed == old(processed)[id := Download(id, stored)])
              && (r.Failure? ==> processed == old(processed)))
    {
      var id := hash(stored.magnet);
      if id in processed {
        return Result.Success(DownloadResult(AlreadyDownloading, processed[id]));
      }
      var added := AddToDownload(id, stored, event);
      if added.Failure? {
        return Failure(added.error);
      }
      processed := processed[id := added.value];
      r := Result.Success(DownloadResult(Started, added.value));
    }

    /** The "done" event of a download: its files are saved under `Destination` (not
        modelled), its stored entry is deleted and it stops counting as downloading. */
    method OnDone(id: string)
      requires Valid()
      modifies this
      ensures Valid()
      ensures downloads == MarkedDownloaded(old(downloads), id)
      ensures processed == old(processed) - {id}
    {
      processed := processed - {id};
      MarkDownloaded(id);
    }

    /** `restoreDownloading`: every stored download that is not already downloading here
        is added again, in store order; a failed add is skipped over. The adds record
        nothing new, since each is already stored, and do not enter `processed`. */
    method RestoreDownloading(events: string -> AddEvent) returns (restarted: seq<string>)
      requires Valid()
      modifies this
      ensures Valid() && downloads == old(downloads) && processed == old(processed)
      ensures restarted == Restarted(Keys(downloads), processed)
    {
      var data, running := downloads, processed;
      restarted := [];
      for i := 0 to |data|
        invariant Valid() && downloads == data && processed == running
        invariant restarted == Restarted(Keys(data)[..i], running)
      {
        var id, stored := data[i].key, data[i].value;
        RestartedSnoc(Keys(data), i, running);
        if id in processed {
          continue;
        }
        assert Has(downloads, id) by {
          assert Keys(downloads)[i] == id;
        }
        var _ := AddToDownload(id, stored, events(id));
        restarted := restarted + [id];
      }
      assert Keys(data)[..|data|] == Keys(data);
    }
  }

  lemma RestartedSnoc(keys: seq<string>, i: nat, processed: map<string, Download>)
    requires i < |keys|
    ensures Restarted(keys[..i + 1], processed) ==
      Restarted(keys[..i], processed) + if keys[i] in processed then [] else [keys[i]]
  {
    assert keys[..i + 1] == keys[..i] + [keys[i]];
    FilterAppend(keys[..i], [keys[i]], (k: string) => k !in processed);
  }

  /** A restart attempts exactly the stored digests not downloading here, each once. */
  lemma RestartedIff(keys: seq<string>, processed: map<string, Download>, k: string)
    ensures k in Restarted(keys, processed) <==> k in keys && k !in processed
  {
    var r := Restarted(keys, processed);
    if k in r {
      var i :| 0 <= i < |r| && r[i] == k;
    }
    if k in keys && k !in processed {
      var i :| 0 <= i < |keys| && keys[i] == k;
    }
  }
}
