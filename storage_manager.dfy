/** `StorageManager` (`service/storageManager.ts`): paths inside the managed storage
    directory. Paths given by the user are normalized by dropping leading characters
    while they start with "..", and every operation works on the managed directory
    joined with normalized paths. The filesystem calls themselves are not modelled: each
    operation is given by the paths it hands to `rename` or `rm`. */
module StorageManager {
  import opened Text
  import Paths

  /** `FileData`: an entry of the managed storage as `filesList` reports it. */
  datatype FileData = FileData(size: int, path: string, isFile: bool)

  /** What `_normalize` returns: the input with its first character dropped as long as it
      starts with "..". It never starts with "..", it is a suffix of the input, and
      input that does not start with ".." is returned as it is. */
  function Normalized(s: string): (r: string)
    ensures !StartsWith(r, "..")
    ensures |r| <= |s| && r == s[|s| - |r|..]
    ensures !StartsWith(s, "..") ==> r == s
    ensures s != [] ==> r != []
    decreases |s|
  {
    if StartsWith(s, "..") then Normalized(s[1..]) else s
  }

  /** `_normalize` */
  method Normalize(original: string) returns (r: string)
    ensures r == Normalized(original)
  {
    r := original;
    while StartsWith(r, "..")
      invariant Normalized(r) == Normalized(original)
      decreases |r|
    {
      r := r[1..];
    }
  }

  /** Normalizing twice is normalizing once. */
  lemma NormalizedIdempotent(s: string)
    ensures Normalized(Normalized(s)) == Normalized(s)
  {
  }

  /** One character is dropped at a time, so a parent reference loses only its first dot. */
  lemma NormalizedParent(x: string)
    ensures Normalized("../" + x) == "./" + x
  {
    assert ("../" + x)[1..] == "./" + x;
  }

  /** The two paths `move` hands to `rename`. */
  function MovePaths(managedDir: string, src: string, dest: string): (r: (string, string))
    ensures r.0 == Paths.JoinNormalized(managedDir, Normalized(src))
    ensures r.1 == Paths.JoinNormalized(managedDir, Normalized(dest))
  {
    (Paths.JoinNormalized(managedDir, Normalized(src)), Paths.JoinNormalized(managedDir, Normalized(dest)))
  }

  /** The two paths `rename` hands to the filesystem: the normalized source, and its
      directory with the new name and the source's extension. */
  function RenamePaths(managedDir: string, src: string, newName: string): (string, string) {
    var normalized := Normalized(src);
    var ext := Paths.Ext(Paths.Base(normalized));
    (Paths.JoinNormalized(managedDir, normalized),
     Paths.JoinNormalized(Paths.JoinNormalized(managedDir, Paths.Dir(normalized)), newName + ext))
  }

  /** The path `delete` hands to `rm`. */
  function DeletePath(managedDir: string, src: string): (r: string)
    ensures r == Paths.JoinNormalized(managedDir, Normalized(src))
  {
    Paths.JoinNormalized(managedDir, Normalized(src))
  }

  /** The renamed file resolves under the managed directory when neither its source
      nor its new name has a ".." segment. */
  lemma RenameTargetUnder(managedDir: string, normalized: string, name: string)
    requires Paths.NoParent(normalized) && Paths.NoParent(name)
    ensures Paths.Under(Paths.JoinNormalized(Paths.JoinNormalized(managedDir, Paths.Dir(normalized)), name), managedDir)
  {
    Paths.DirNoParent(normalized);
    var dir := Paths.JoinNormalized(managedDir, Paths.Dir(normalized));
    Paths.JoinNormalizedSegments(managedDir, Paths.Dir(normalized));
    Paths.JoinNormalizedSegments(dir, name);
  }

  /** Every path handed to the filesystem resolves to the managed directory or a path
      inside it, provided the normalized paths and the new file name have no ".."
      segment. */
  lemma UnderManagedDir(managedDir: string, src: string, dest: string, newName: string)
    requires Paths.NoParent(Normalized(src)) && Paths.NoParent(Normalized(dest))
    requires Paths.NoParent(newName + Paths.ExtName(Normalized(src)))
    ensures Paths.Under(MovePaths(managedDir, src, dest).0, managedDir)
    ensures Paths.Under(MovePaths(managedDir, src, dest).1, managedDir)
    ensures Paths.Under(RenamePaths(managedDir, src, newName).0, managedDir)
    ensures Paths.Under(RenamePaths(managedDir, src, newName).1, managedDir)
    ensures Paths.Under(DeletePath(managedDir, src), managedDir)
  {
    var normalized := Normalized(src);
    Paths.JoinStaysUnder(managedDir, normalized);
    Paths.JoinStaysUnder(managedDir, Normalized(dest));
    RenameTargetUnder(managedDir, normalized, newName + Paths.ExtName(normalized));
  }

  /** The managed directory "/m" normalizes to itself. */
  lemma NormalizeM()
    ensures Paths.Segments("/m") == ["m"] && Paths.Normalize("/m") == "/m"
  {
    Paths.SplitPiece("m");
    Paths.SegmentsBehindSeparator("m");
    assert Paths.Resolve([], ["m"], true) == ["m"];
  }

  /** "/m/../x" resolves to the single segment "x". */
  lemma ClimbSegments()
    ensures Paths.Segments("/m" + "/" + "../x") == ["x"]
  {
    NormalizeM();
    Paths.SplitPiece("x");
    Paths.SplitPiece("..");
    assert "../x" == ".." + ['/'] + "x";
    Text.SplitConcat("..", "x", '/');
    Paths.SegmentsOfJoin("/m", "../x");
    assert Paths.Resolve(["m"], ["..", "x"], true) == ["x"];
  }

  /** "/m/../x" normalizes to "/x". */
  lemma NormalizeClimb()
    ensures Paths.Normalize("/m" + "/" + "../x") == "/x"
  {
    var q := "/m" + "/" + "../x";
    ClimbSegments();
    Paths.NormalizeShape(q, ["x"]);
    assert q[0] == '/' && q[|q| - 1] == 'x';
    assert Text.Join(["x"], "/") == "x";
  }

  /** `_normalize` strips only leading dots, and `path.join` resolves ".." segments, so a
      new name with ".." climbs out: renaming "f" in "/m" to "../x" targets "/x". */
  lemma RenameEscapes()
    ensures RenamePaths("/m", "f", "../x").1 == "/x"
    ensures !Paths.Under(RenamePaths("/m", "f", "../x").1, "/m")
  {
    assert Normalized("f") == "f";
    assert Paths.LastIndexOf("f", '/').None? && Paths.LastIndexOf("f", '.').None?;
    assert Paths.Base("f") == "f" && Paths.Ext("f") == "" && Paths.Dir("f") == "";
    NormalizeM();
    assert Paths.JoinNormalized("/m", Paths.Dir("f")) == "/m";
    assert "../x" + Paths.Ext(Paths.Base("f")) == "../x";
    NormalizeClimb();
    assert RenamePaths("/m", "f", "../x").1 == Paths.JoinNormalized("/m", "../x");
    Paths.SplitPiece("x");
    Paths.SegmentsBehindSeparator("x");
    assert Paths.Resolve([], ["x"], true) == ["x"];
  }

  /** The extension is what follows the last dot, so it holds no other dot. */
  lemma ExtHasOneDot(base: string)
    ensures var ext := Paths.Ext(base);
      ext != [] ==> '.' !in ext[1..] && forall j :: 0 <= j < |ext| ==> ext[j] in base
  {
    var ext := Paths.Ext(base);
    if ext != [] {
      var i := Paths.LastIndexOf(base, '.').value;
      assert ext == base[i..] && ext[1..] == base[i + 1..];
      forall j | 0 <= j < |ext|
        ensures ext[j] in base
      {
        assert ext[j] == base[i + j];
      }
    }
  }

  /** A name joined onto a directory resolves to the directory's segments and that name,
      and is the base name of the result. */
  lemma NameJoined(dir: string, name: string)
    requires Paths.IsName(name) && '/' !in name && dir != ""
    ensures Paths.Segments(Paths.JoinNormalized(dir, name)) == Paths.Segments(dir) + [name]
    ensures Paths.Base(Paths.JoinNormalized(dir, name)) == name
  {
    Paths.SplitPiece(name);
    Paths.ResolveWithoutParent([], [name], Paths.IsAbsolute(name));
    assert Paths.Names([name]) == [name];
    Paths.JoinNormalizedSegments(dir, name);
    Paths.BaseOfJoinNormalized(dir, name);
  }

  /** A rename keeps the file in its directory and keeps its extension, for a new name
      that is one non-empty segment without a dot: the target resolves to the source's
      directory followed by the new name with the source's extension. */
  lemma RenameKeepsDirAndExt(managedDir: string, src: string, newName: string)
    requires |newName| > 0 && '/' !in newName && '.' !in newName
    ensures var normalized := Normalized(src);
      var (_, to) := RenamePaths(managedDir, src, newName);
      var name := newName + Paths.ExtName(normalized);
      && Paths.Segments(to) == Paths.Segments(Paths.JoinNormalized(managedDir, Paths.Dir(normalized))) + [name]
      && Paths.Base(to) == name
      && Paths.ExtName(to) == Paths.ExtName(normalized)
  {
    var normalized := Normalized(src);
    var ext := Paths.Ext(Paths.Base(normalized));
    var name := newName + ext;
    var dir := Paths.JoinNormalized(managedDir, Paths.Dir(normalized));
    ExtHasOneDot(Paths.Base(normalized));
    assert '/' !in name by {
      forall j | 0 <= j < |name|
        ensures name[j] != '/'
      {
        if j >= |newName| {
          assert name[j] == ext[j - |newName|];
        }
      }
    }
    assert name[0] == newName[0] && newName[0] in newName;
    NameJoined(dir, name);
    if ext == [] {
      assert name == newName;
      assert Paths.LastIndexOf(name, '.').None?;
    } else {
      Paths.ExtOfNamePlusExt(newName, ext);
    }
  }
}
