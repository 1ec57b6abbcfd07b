/** `Files` (`service/files.ts`): a chat's file listing, kept in the chat's own FSDB
    file together with the listing page and the display modes. Each getter reads the
    store once and caches what it read; the setters write the store and leave the caches
    alone. */
module Files {
  import opened Wrappers
  import opened Seqs
  import opened StorageManager

  /** `DEFAULT_FILES_LIST_MODE` */
  const DefaultModes: seq<string> := ["directories", "files"]

  /** The mode that shows an entry: "files" for a file, "directories" for a directory. */
  function ModeOf(f: FileData): string {
    if f.isFile then "files" else "directories"
  }

  /** The entries of `files` the modes show, in order. */
  function Shown(files: seq<FileData>, modes: seq<string>): seq<FileData> {
    Filter(files, (f: FileData) => ModeOf(f) in modes)
  }

  /** A file is shown exactly when "files" is a mode, a directory exactly when
      "directories" is one. */
  lemma ShownIff(files: seq<FileData>, modes: seq<string>, f: FileData)
    ensures f in Shown(files, modes) <==> f in files && (if f.isFile then "files" in modes else "directories" in modes)
  {
  }

  /** With the default modes every entry is shown, in order. */
  lemma {:induction false} DefaultShowsAll(files: seq<FileData>)
    ensures Shown(files, DefaultModes) == files
    decreases |files|
  {
    if files != [] {
      var init, last := files[..|files| - 1], files[|files| - 1];
      DefaultShowsAll(init);
      assert files == init + [last];
      FilterAppend(init, [last], (f: FileData) => ModeOf(f) in DefaultModes);
    }
  }

  class Files {
    /** The stored page, modes and file list (`undefined` being `None`). */
    var storedPage: Option<int>
    var storedModes: Option<seq<string>>
    var storedFiles: Option<seq<FileData>>
    /** `_pageCache`, `_modesCache` and `_filesCache` (`null` being `None`). */
    var pageCache: Option<int>
    var modesCache: Option<seq<string>>
    var filesCache: Option<seq<FileData>>

    /** A `Files` over a chat's store, with empty caches. */
    constructor (page: Option<int>, modes: Option<seq<string>>, files: Option<seq<FileData>>)
      ensures storedPage == page && storedModes == modes && storedFiles == files
      ensures pageCache == None && modesCache == None && filesCache == None
    {
      storedPage, storedModes, storedFiles := page, modes, files;
      pageCache, modesCache, filesCache := None, None, None;
    }

    /** The `page` getter: the cache is (re)filled from the store, 0 when nothing is
        stored, whenever it is empty or 0, since 0 is falsy. */
    method Page() returns (p: int)
      modifies this
      ensures old(pageCache).None? || old(pageCache) == Some(0) ==> p == storedPage.GetOr(0)
      ensures old(pageCache).Some? && old(pageCache) != Some(0) ==> p == old(pageCache).value
      ensures pageCache == Some(p)
      ensures storedPage == old(storedPage) && storedModes == old(storedModes) && storedFiles == old(storedFiles)
      ensures modesCache == old(modesCache) && filesCache == old(filesCache)
    {
      if pageCache.None? || pageCache.value == 0 {
        pageCache := Some(storedPage.GetOr(0));
      }
      p := pageCache.value;
    }

    /** The `page` setter */
    method SetPage(value: int)
      modifies this
      ensures storedPage == Some(value) && storedModes == old(storedModes) && storedFiles == old(storedFiles)
      ensures pageCache == old(pageCache) && modesCache == old(modesCache) && filesCache == old(filesCache)
    {
      storedPage := Some(value);
    }

    /** The `modes` getter: the stored modes, or the default ones when none are stored;
        read once, since any list (even an empty one) is truthy. */
    method Modes() returns (m: seq<string>)
      modifies this
      ensures old(modesCache).None? ==> m == storedModes.GetOr(DefaultModes)
      ensures old(modesCache).Some? ==> m == old(modesCache).value
      ensures modesCache == Some(m)
      ensures storedPage == old(storedPage) && storedModes == old(storedModes) && storedFiles == old(storedFiles)
      ensures pageCache == old(pageCache) && filesCache == old(filesCache)
    {
      if modesCache.None? {
        modesCache := Some(storedModes.GetOr(DefaultModes));
      }
      m := modesCache.value;
    }

    /** The `modes` setter */
    method SetModes(values: seq<string>)
      modifies this
      ensures storedModes == Some(values) && storedPage == old(storedPage) && storedFiles == old(storedFiles)
      ensures pageCache == old(pageCache) && modesCache == old(modesCache) && filesCache == old(filesCache)
    {
      storedModes := Some(values);
    }

    /** The `files` getter: the stored list (empty when none is stored) filtered by the
        modes, computed on the first call only. */
    method Files() returns (fs: seq<FileData>)
      modifies this
      ensures old(filesCache).None? ==>
        && modesCache == Some(old(modesCache).GetOr(storedModes.GetOr(DefaultModes)))
        && fs == Shown(storedFiles.GetOr([]), modesCache.value)
      ensures old(filesCache).Some? ==> fs == old(filesCache).value && modesCache == old(modesCache)
      ensures filesCache == Some(fs)
      ensures storedPage == old(storedPage) && storedModes == old(storedModes) && storedFiles == old(storedFiles)
      ensures pageCache == old(pageCache)
    {
      if filesCache.None? {
        var modes := Modes();
        var files := storedFiles.GetOr([]);
        filesCache := Some(Filter(files, (f: FileData) => ModeOf(f) in modes));
      }
      fs := filesCache.value;
    }

    /** The `files` setter */
    method SetFiles(values: seq<FileData>)
      modifies this
      ensures storedFiles == Some(values) && storedPage == old(storedPage) && storedModes == old(storedModes)
      ensures pageCache == old(pageCache) && modesCache == old(modesCache) && filesCache == old(filesCache)
    {
      storedFiles := Some(values);
    }
  }

  /** A page read before it is set keeps being returned, unless it was 0. */
  method StalePage() returns (first: int, second: int)
    ensures first == 3 && second == 3
  {
    var files := new Files(Some(3), None, None);
    first := files.Page();
    files.SetPage(7);
    second := files.Page();
  }

  /** A page read as 0 is read again from the store. */
  method ZeroPageReread() returns (first: int, second: int)
    ensures first == 0 && second == 7
  {
    var files := new Files(None, None, None);
    first := files.Page();
    files.SetPage(7);
    second := files.Page();
  }

  /** The file list is filtered once: later changes to the modes do not show. */
  method FilesComputedOnce(entries: seq<FileData>) returns (first: seq<FileData>, second: seq<FileData>)
    ensures first == entries && second == entries
  {
    var files := new Files(None, None, Some(entries));
    first := files.Files();
    DefaultShowsAll(entries);
    files.SetModes(["files"]);
    files.SetFiles([]);
    second := files.Files();
  }
}
