/** The file list of `listeners/filesList.ts`: the managed files shown fifteen to a
    page, each with its size and the commands that act on it, and the default pattern
    that selects the files of the configured categories. Sizes are formatted by
    `humanFormat`, which is left abstract. */
module FilesList {
  import opened Wrappers
  import opened Text
  import opened Seqs
  import opened ServiceIndex
  import opened Keyboard
  import opened StorageManager

  /** `PAGE_SIZE` */
  const PageSize := 15

  /** `KEYBOARD_PREFIX` */
  const KeyboardPrefix := "file_list"

  /** The files of page `page`: `files.slice(page * 15, page * 15 + 15)`. */
  function Shown(files: seq<FileData>, page: int): seq<FileData> {
    Slice(files, page * PageSize, page * PageSize + PageSize)
  }

  /** The total size of the files, summed from the first. */
  function TotalSize(files: seq<FileData>): int
    decreases |files|
  {
    if files == [] then 0 else TotalSize(files[..|files| - 1]) + files[|files| - 1].size
  }

  /** The fixed parts of the header. */
  const HeaderStart := "Список файлов. Отображается "
  const HeaderOf := " из "
  const HeaderSize := " файлов и папок, размером "

  /** The header of a page: how many files it shows, of how many, and their total size. */
  function Header(shown: nat, total: nat, size: string): string {
    HeaderStart + IntToString(shown) + HeaderOf + IntToString(total) + HeaderSize + size + "."
  }

  /** The commands of the file with index `n` in the whole list: delete and rename, and
      move for a file. */
  function Commands(n: int, isFile: bool): string {
    "[/delete_" + IntToString(n) + "] [/rename_" + IntToString(n) + "]" + (if isFile then " [/move_" + IntToString(n) + "]" else "") + "\n"
  }

  /** The two lines of a file of a page starting at index `first`: its path and size,
      then its commands. */
  function FileLines(human: int -> string, first: int): (FileData, nat) -> seq<string> {
    (file: FileData, index: nat) => ["<code>/" + file.path + " [" + human(file.size) + "]</code>", Commands(first + index, file.isFile)]
  }

  /** `createMessage`: the listing of page `page`. The display modes it is given are not
      used; the files are already the ones the modes show. */
  function CreateMessage(files: seq<FileData>, page: int, human: int -> string): string {
    var shown := Shown(files, page);
    Listing(Header(|shown|, |files|, human(TotalSize(files))), shown, FileLines(human, page * PageSize))
  }

  /** The last page the pagination keyboard offers: `Math.trunc(n / 15)`. */
  function LastPage(n: nat): nat {
    n / PageSize
  }

  /** The pagination row under page `page`. */
  function Pagination(files: seq<FileData>, page: int): InlineKeyboard {
    PaginationKeyboard(KeyboardPrefix, page, LastPage(|files|))
  }

  /** Page `page` shows the fifteen files from index `page * 15` on, fewer on the last
      page, none past the end. */
  lemma ShownWindow(files: seq<FileData>, page: nat)
    ensures var shown := Shown(files, page);
      && |shown| == (if page * PageSize >= |files| then 0 else if |files| - page * PageSize < PageSize then |files| - page * PageSize else PageSize)
      && forall i :: 0 <= i < |shown| ==> shown[i] == files[page * PageSize + i]
  {
    SliceWindow(files, page * PageSize, PageSize);
  }

  /** A listing built from `FileLines` has two lines per file, in order. */
  lemma {:induction false} EntriesTwoPerFile(shown: seq<FileData>, human: int -> string, first: int)
    ensures |Entries(shown, FileLines(human, first))| == 2 * |shown|
    ensures forall k :: 0 <= k < |shown| ==>
      && Entries(shown, FileLines(human, first))[2 * k] == FileLines(human, first)(shown[k], k)[0]
      && Entries(shown, FileLines(human, first))[2 * k + 1] == FileLines(human, first)(shown[k], k)[1]
    decreases |shown|
  {
    if shown != [] {
      var init := shown[..|shown| - 1];
      EntriesTwoPerFile(init, human, first);
      assert forall k :: 0 <= k < |init| ==> init[k] == shown[k];
    }
  }

  /** The lines of the `k`-th file of a window starting at index `first`. */
  lemma WindowLines(files: seq<FileData>, first: nat, human: int -> string, k: nat)
    requires k < |Slice(files, first, first + PageSize)|
    ensures first + k < |files|
    ensures var lines := Entries(Slice(files, first, first + PageSize), FileLines(human, first));
      && |lines| == 2 * |Slice(files, first, first + PageSize)|
      && lines[2 * k] == "<code>/" + files[first + k].path + " [" + human(files[first + k].size) + "]</code>"
      && lines[2 * k + 1] == Commands(first + k, files[first + k].isFile)
  {
    var shown, lines := Slice(files, first, first + PageSize), FileLines(human, first);
    SliceWindow(files, first, PageSize);
    EntriesTwoPerFile(shown, human, first);
    var file := shown[k];
    assert file == files[first + k];
    assert lines(file, k) == ["<code>/" + file.path + " [" + human(file.size) + "]</code>", Commands(first + k, file.isFile)];
  }

  /** The command indices of a page are indices in the whole list: the `k`-th file shown
      on page `page` is the file at `page * 15 + k`, and its commands carry that index. */
  lemma CommandsAbsolute(files: seq<FileData>, page: nat, human: int -> string, k: nat)
    requires k < |Shown(files, page)|
    ensures page * PageSize + k < |files|
    ensures |Entries(Shown(files, page), FileLines(human, page * PageSize))| == 2 * |Shown(files, page)|
    ensures Entries(Shown(files, page), FileLines(human, page * PageSize))[2 * k + 1]
      == Commands(page * PageSize + k, files[page * PageSize + k].isFile)
    ensures Entries(Shown(files, page), FileLines(human, page * PageSize))[2 * k]
      == "<code>/" + files[page * PageSize + k].path + " [" + human(files[page * PageSize + k].size) + "]</code>"
  {
    var first := page * PageSize;
    assert Shown(files, page) == Slice(files, first, first + PageSize);
    WindowLines(files, first, human, k);
  }

  /** The commands of a directory never end with a move command, whatever the digits:
      the letter before `e_` is `m` in "rename" and `v` in "move". */
  lemma DirectoryCommandsNoMove(digits: string)
    ensures !EndsWith("[/delete_" + digits + "] [/rename_" + digits + "]" + "\n", " [/move_" + digits + "]\n")
  {
    var tail := "_" + digits + "]" + "\n";
    var s := "[/delete_" + digits + "] [/rename" + tail;
    var move := " [/move" + tail;
    assert "[/delete_" + digits + "] [/rename_" + digits + "]" + "\n" == s;
    assert " [/move_" + digits + "]\n" == move;
    if |move| <= |s| {
      assert s[|s| - |tail| - 2] == 'm';
      assert move[|move| - |tail| - 2] == 'v';
      assert s[|s| - |move|..][|move| - |tail| - 2] == s[|s| - |tail| - 2];
    }
  }

  /** Only a file is offered the move command. */
  lemma MoveOnlyForFiles(n: int, isFile: bool)
    ensures EndsWith(Commands(n, isFile), " [/move_" + IntToString(n) + "]\n") <==> isFile
  {
    var digits := IntToString(n);
    var head := "[/delete_" + digits + "] [/rename_" + digits + "]";
    if isFile {
      assert Commands(n, isFile) == head + (" [/move_" + digits + "]\n");
    } else {
      assert Commands(n, isFile) == head + "\n";
      DirectoryCommandsNoMove(digits);
    }
  }

  /** The header reports the number of files shown and the number of files in all. */
  lemma HeaderCounts(files: seq<FileData>, page: int, human: int -> string)
    ensures StartsWith(CreateMessage(files, page, human),
      HeaderStart + IntToString(|Shown(files, page)|) + HeaderOf + IntToString(|files|) + HeaderSize)
  {
    var shown := Shown(files, page);
    var header := Header(|shown|, |files|, human(TotalSize(files)));
    var prefix := HeaderStart + IntToString(|shown|) + HeaderOf + IntToString(|files|) + HeaderSize;
    ListingStartsWithHeader(header, shown, FileLines(human, page * PageSize));
    assert header == prefix + (human(TotalSize(files)) + ".");
    PrefixOfConcat(prefix, human(TotalSize(files)) + ".");
    PrefixOfConcat(header, "\n");
    PrefixOfPrefix(header + "\n", header, prefix);
    PrefixOfPrefix(CreateMessage(files, page, human), header + "\n", prefix);
  }

  /** The last page offered is empty exactly when the number of files is a multiple of
      fifteen (none included); otherwise it shows the files left after the full pages. */
  lemma LastPageContents(files: seq<FileData>)
    ensures Shown(files, LastPage(|files|)) == [] <==> |files| % PageSize == 0
    ensures |files| % PageSize != 0 ==> Shown(files, LastPage(|files|)) == files[LastPage(|files|) * PageSize..]
  {
    var last := LastPage(|files|);
    ShownWindow(files, last);
    assert last * PageSize + |files| % PageSize == |files|;
  }

  /** Every file is on a page the pagination can reach. */
  lemma EveryFileOnAPage(files: seq<FileData>, j: nat)
    requires j < |files|
    ensures j / PageSize <= LastPage(|files|)
    ensures var page := j / PageSize; Shown(files, page)[j - page * PageSize] == files[j]
  {
    var page := j / PageSize;
    ShownWindow(files, page);
  }

  /** `extension.replace(".", "\\.")`: the first occurrence is replaced. */
  function ReplaceFirst(s: string, c: char, replacement: string): (r: string)
    ensures First(s, (x: char) => x == c).None? ==> r == s
    ensures First(s, (x: char) => x == c).Some? ==>
      var i := First(s, (x: char) => x == c).value; r == s[..i] + replacement + s[i + 1..]
    decreases |s|
  {
    if s == [] then s
    else if s[0] == c then replacement + s[1..]
    else [s[0]] + ReplaceFirst(s[1..], c, replacement)
  }

  /** An extension with its first dot escaped for a regular expression. */
  function Escaped(ext: string): string {
    ReplaceFirst(ext, '.', "\\.")
  }

  /** The extensions of all categories, category by category. */
  function AllExtensions(categories: seq<seq<string>>): seq<string>
    decreases |categories|
  {
    if categories == [] then [] else AllExtensions(categories[..|categories| - 1]) + categories[|categories| - 1]
  }

  /** The extensions, escaped. */
  function EscapedAll(exts: seq<string>): (r: seq<string>)
    ensures |r| == |exts| && forall i :: 0 <= i < |exts| ==> r[i] == Escaped(exts[i])
  {
    seq(|exts|, i requires 0 <= i < |exts| => Escaped(exts[i]))
  }

  /** The default pattern: the escaped extensions as alternatives, at the end of the
      path. */
  function Pattern(categories: seq<seq<string>>): string {
    "(" + Join(EscapedAll(AllExtensions(categories)), "|") + ")$"
  }

  /** `getDefaultRegexpPattern`, over the categories of the configuration in order. */
  method DefaultPattern(categories: seq<seq<string>>) returns (r: string)
    ensures r == Pattern(categories)
  {
    var extensions: seq<string> := [];
    for i := 0 to |categories|
      invariant extensions == AllExtensions(categories[..i])
    {
      assert categories[..i + 1][..i] == categories[..i];
      extensions := extensions + categories[i];
    }
    assert categories[..|categories|] == categories;
    var escaped := seq(|extensions|, j requires 0 <= j < |extensions| => ReplaceFirst(extensions[j], '.', "\\."));
    assert escaped == EscapedAll(extensions);
    r := "(" + Join(escaped, "|") + ")$";
  }

  /** An extension without a '|' stays without one once escaped. */
  lemma {:induction false} EscapedNoBar(ext: string)
    requires '|' !in ext
    ensures '|' !in Escaped(ext)
    decreases |ext|
  {
    var e := Escaped(ext);
    match First(ext, (x: char) => x == '.')
    case None =>
    case Some(i) =>
      assert e == ext[..i] + "\\." + ext[i + 1..];
      forall j | 0 <= j < |e|
        ensures e[j] != '|'
      {
        if j < i {
          assert e[j] == ext[j];
        } else if j >= i + 2 {
          assert e[j] == ext[j - 1];
        }
      }
  }

  /** When no extension holds a '|', the pattern has one alternative per extension, in
      order, each the extension with its first dot escaped. */
  lemma PatternAlternatives(categories: seq<seq<string>>)
    requires AllExtensions(categories) != []
    requires forall e :: e in AllExtensions(categories) ==> '|' !in e
    ensures var p := Pattern(categories);
      && StartsWith(p, "(") && EndsWith(p, ")$")
      && Split(p[1..|p| - 2], '|') == EscapedAll(AllExtensions(categories))
  {
    var exts := AllExtensions(categories);
    var escaped := EscapedAll(exts);
    forall i | 0 <= i < |escaped|
      ensures '|' !in escaped[i]
    {
      assert exts[i] in exts;
      EscapedNoBar(exts[i]);
    }
    JoinSplit(escaped, '|');
    var p := Pattern(categories);
    assert p[1..|p| - 2] == Join(escaped, "|");
  }
}
