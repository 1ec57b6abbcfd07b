/** The subset of node's POSIX `path` module the modelled code uses: `join` and
    `normalize`, and the `dir`, `base`, `name` and `ext` parts of `parse` (and `basename`,
    `extname`). */
module Paths {
  import opened Wrappers
  import Text

  /** The joining half of `path.join(a, b)`: the two parts with one separator between
      them. It is what `path.join` returns for parts that `normalize` leaves alone, and it
      is the join the model uses except in the storage manager, which uses `JoinNormalized`. */
  function Join(a: string, b: string): (r: string)
    ensures |r| == |a| + 1 + |b| && r[..|a|] == a && r[|a|] == '/' && r[|a| + 1..] == b
  {
    a + "/" + b
  }

  /** `s.lastIndexOf(c)` */
  function LastIndexOf(s: string, c: char): (r: Option<nat>)
    ensures r.Some? ==> r.value < |s| && s[r.value] == c && c !in s[r.value + 1..]
    ensures r.None? ==> c !in s
    decreases |s|
  {
    if |s| == 0 then None
    else if s[|s| - 1] == c then Some(|s| - 1)
    else LastIndexOf(s[..|s| - 1], c)
  }

  /** `path.parse(p).base` / `path.basename(p)`: what follows the last separator. */
  function Base(p: string): (r: string)
    ensures '/' !in r
  {
    match LastIndexOf(p, '/')
    case None => p
    case Some(i) => p[i + 1..]
  }

  /** `path.parse(p).dir`: what precedes the last separator ("/" for a root entry,
      "" when there is no separator). */
  function Dir(p: string): string {
    match LastIndexOf(p, '/')
    case None => ""
    case Some(i) => if i == 0 then "/" else p[..i]
  }

  /** `path.parse(p).ext` of a base name: from its last dot, unless that dot starts the
      name (".bashrc" has no extension) or the name is "..". */
  function Ext(base: string): (r: string)
    ensures |r| <= |base| && r == base[|base| - |r|..]
    ensures r != [] ==> r[0] == '.' && |r| < |base|
    ensures base == ".." ==> r == ""
  {
    if base == ".." then ""
    else match LastIndexOf(base, '.')
    case None => ""
    case Some(i) => if i == 0 then "" else base[i..]
  }

  /** `path.parse(p).name` of a base name: the base name without its extension. */
  function Name(base: string): string {
    base[..|base| - |Ext(base)|]
  }

  /** `extname(p)` */
  function ExtName(p: string): string {
    Ext(Base(p))
  }

  /** A parsed base name is its name followed by its extension. */
  lemma NameThenExt(base: string)
    ensures Name(base) + Ext(base) == base
  {
  }

  /** The last occurrence is the one with none after it. */
  lemma {:induction false} LastIndexOfAt(s: string, c: char, i: nat)
    requires i < |s| && s[i] == c && c !in s[i + 1..]
    ensures LastIndexOf(s, c) == Some(i)
    decreases |s|
  {
    if i < |s| - 1 {
      assert s[|s| - 1] in s[i + 1..];
      assert s[..|s| - 1][i + 1..] == s[i + 1..|s| - 1];
      LastIndexOfAt(s[..|s| - 1], c, i);
    }
  }

  /** Joining a single segment to a directory yields that directory and segment back. */
  lemma JoinParse(a: string, b: string)
    requires '/' !in b && |a| > 0
    ensures Base(Join(a, b)) == b
    ensures Dir(Join(a, b)) == a
  {
    LastIndexOfAt(Join(a, b), '/', |a|);
  }

  /** Appending a non-empty extension to a non-empty name keeps that extension. */
  lemma ExtOfNamePlusExt(name: string, ext: string)
    requires |name| > 0 && |ext| > 0 && ext[0] == '.' && '.' !in ext[1..] && name[0] != '.'
    ensures Ext(name + ext) == ext
  {
    var s := name + ext;
    assert s[0] == name[0];
    assert s[|name| + 1..] == ext[1..];
    LastIndexOfAt(s, '.', |name|);
  }

  /** A base name following a separator is what `basename` returns. */
  lemma BaseAfterSeparator(a: string, b: string)
    requires '/' !in b
    ensures Base(a + "/" + b) == b
  {
    var p := a + "/" + b;
    assert p[|a| + 1..] == b;
    LastIndexOfAt(p, '/', |a|);
  }

  /** A string without a separator splits into itself. */
  lemma SplitPiece(s: string)
    requires '/' !in s
    ensures Text.Split(s, '/') == [s]
  {
    Text.SplitJoin(s, '/');
  }

  /** A path is absolute when it starts with the separator. */
  predicate IsAbsolute(p: string) {
    |p| > 0 && p[0] == '/'
  }

  /** A segment `normalize` keeps as it is: not empty, not "." and not "..". */
  predicate IsName(segment: string) {
    segment != "" && segment != "." && segment != ".."
  }

  /** One segment of node's `normalizeString`: empty and "." segments are dropped, ".."
      removes the last kept segment, and a ".." with nothing to remove is dropped at the
      root of an absolute path and kept in a relative one. */
  function Step(kept: seq<string>, segment: string, absolute: bool): seq<string> {
    if segment == "" || segment == "." then kept
    else if segment == ".." then
      if |kept| > 0 && kept[|kept| - 1] != ".." then kept[..|kept| - 1]
      else if absolute then kept
      else kept + [".."]
    else kept + [segment]
  }

  /** The segments `normalizeString` keeps after `segments`, starting from `kept`. */
  function Resolve(kept: seq<string>, segments: seq<string>, absolute: bool): seq<string>
    decreases |segments|
  {
    if segments == [] then kept else Resolve(Step(kept, segments[0], absolute), segments[1..], absolute)
  }

  /** The segments a path resolves to. */
  function Segments(p: string): seq<string> {
    Resolve([], Text.Split(p, '/'), IsAbsolute(p))
  }

  /** `path.normalize(p)`: the resolved segments joined by separators, behind a separator
      when the path is absolute and followed by one when the path ends with one; "." (or
      "./", or "/") when nothing is left. */
  function Normalize(p: string): (r: string)
    ensures r != ""
  {
    if p == "" then "."
    else
      var trailing := p[|p| - 1] == '/';
      var body := Text.Join(Segments(p), "/");
      if body == "" then (if IsAbsolute(p) then "/" else if trailing then "./" else ".")
      else (if IsAbsolute(p) then "/" else "") + body + (if trailing then "/" else "")
  }

  /** `path.join(a, b)`: the non-empty parts joined by a separator and normalized, or "."
      when both are empty. */
  function JoinNormalized(a: string, b: string): (r: string)
    ensures r != ""
  {
    if a == "" && b == "" then "."
    else if a == "" then Normalize(b)
    else if b == "" then Normalize(a)
    else Normalize(a + "/" + b)
  }

  /** A path has no parent segment: nothing in it can climb out of a directory. */
  predicate NoParent(p: string) {
    ".." !in Text.Split(p, '/')
  }

  /** `p` resolves to `dir` or to a path inside it. */
  predicate Under(p: string, dir: string) {
    Segments(dir) <= Segments(p)
  }

  /** The segments of a list that are names, in order. */
  function Names(segments: seq<string>): (r: seq<string>)
    ensures forall i :: 0 <= i < |r| ==> IsName(r[i])
  {
    if segments == [] then []
    else (if IsName(segments[0]) then [segments[0]] else []) + Names(segments[1..])
  }

  /** A list of resolved segments: names without separators, and ".." only ahead of
      every name. */
  predicate WellFormed(ks: seq<string>) {
    forall i :: 0 <= i < |ks| ==>
      && ks[i] != "" && ks[i] != "." && '/' !in ks[i]
      && (ks[i] == ".." ==> forall j :: 0 <= j < i ==> ks[j] == "..")
  }

  /** Resolving one list after another is resolving their concatenation. */
  lemma {:induction false} ResolveConcat(kept: seq<string>, xs: seq<string>, ys: seq<string>, absolute: bool)
    ensures Resolve(kept, xs + ys, absolute) == Resolve(Resolve(kept, xs, absolute), ys, absolute)
    decreases |xs|
  {
    if xs != [] {
      assert (xs + ys)[0] == xs[0] && (xs + ys)[1..] == xs[1..] + ys;
      ResolveConcat(Step(kept, xs[0], absolute), xs[1..], ys, absolute);
    } else {
      assert xs + ys == ys;
    }
  }

  /** Without parent segments, resolving only appends the names. */
  lemma {:induction false} ResolveWithoutParent(kept: seq<string>, xs: seq<string>, absolute: bool)
    requires ".." !in xs
    ensures Resolve(kept, xs, absolute) == kept + Names(xs)
    decreases |xs|
  {
    if xs != [] {
      assert xs[0] in xs;
      assert ".." !in xs[1..] by {
        forall i | 0 <= i < |xs[1..]|
          ensures xs[1..][i] != ".."
        {
          assert xs[1..][i] == xs[i + 1];
        }
      }
      ResolveWithoutParent(Step(kept, xs[0], absolute), xs[1..], absolute);
    }
  }

  /** One step keeps a list of resolved segments well formed, and free of ".." at the
      root of an absolute path. */
  lemma StepWellFormed(kept: seq<string>, segment: string, absolute: bool)
    requires WellFormed(kept) && '/' !in segment
    requires absolute ==> ".." !in kept
    ensures WellFormed(Step(kept, segment, absolute))
    ensures absolute ==> ".." !in Step(kept, segment, absolute)
  {
    var r := Step(kept, segment, absolute);
    if segment == ".." && !(|kept| > 0 && kept[|kept| - 1] != "..") && !absolute {
      assert r == kept + [".."];
      forall i | 0 <= i < |r|
        ensures r[i] == ".."
      {
        if i < |kept| {
          assert kept[|kept| - 1] == "..";
        }
      }
    }
  }

  /** Resolving keeps a list well formed. */
  lemma {:induction false} ResolveWellFormed(kept: seq<string>, xs: seq<string>, absolute: bool)
    requires WellFormed(kept) && forall i :: 0 <= i < |xs| ==> '/' !in xs[i]
    requires absolute ==> ".." !in kept
    ensures WellFormed(Resolve(kept, xs, absolute))
    ensures absolute ==> ".." !in Resolve(kept, xs, absolute)
    decreases |xs|
  {
    if xs != [] {
      StepWellFormed(kept, xs[0], absolute);
      assert forall i :: 0 <= i < |xs[1..]| ==> xs[1..][i] == xs[i + 1];
      ResolveWellFormed(Step(kept, xs[0], absolute), xs[1..], absolute);
    }
  }

  /** A well-formed list resolves to itself. */
  lemma {:induction false} ResolveIdentity(ks: seq<string>, absolute: bool)
    requires WellFormed(ks) && (absolute ==> ".." !in ks)
    ensures Resolve([], ks, absolute) == ks
    decreases |ks|
  {
    if ks != [] {
      var init := ks[..|ks| - 1];
      var last := ks[|ks| - 1];
      assert init + [last] == ks;
      assert WellFormed(init) by {
        forall i | 0 <= i < |init|
          ensures init[i] == ks[i]
        {
        }
      }
      assert absolute ==> ".." !in init;
      ResolveIdentity(init, absolute);
      ResolveConcat([], init, [last], absolute);
      assert Resolve([], ks, absolute) == Resolve(Step(init, last, absolute), [], absolute);
      if last == ".." && init != [] {
        assert init[|init| - 1] == ks[|init| - 1] == "..";
      }
    }
  }

  /** The segments of a path are well formed. */
  lemma SegmentsWellFormed(p: string)
    ensures WellFormed(Segments(p))
    ensures IsAbsolute(p) ==> ".." !in Segments(p)
  {
    ResolveWellFormed([], Text.Split(p, '/'), IsAbsolute(p));
  }

  /** What `normalize` returns when nothing is left resolves to nothing. */
  lemma EmptyNormalForms()
    ensures Segments("/") == [] && Segments("./") == [] && Segments(".") == []
  {
    assert "/" == "" + ['/'] + "";
    Text.SplitConcat("", "", '/');
    assert Resolve([], ["", ""], true) == [];
    assert "./" == "." + ['/'] + "";
    Text.SplitConcat(".", "", '/');
    SplitPiece(".");
    assert Resolve([], [".", ""], false) == [];
    assert Resolve([], ["."], false) == [];
  }

  /** A join of well-formed segments, followed by a separator when `trailing`, resolves
      to those segments. */
  lemma JoinedBody(ks: seq<string>, trailing: bool, absolute: bool)
    requires ks != [] && WellFormed(ks) && (absolute ==> ".." !in ks)
    ensures Resolve([], Text.Split(Text.Join(ks, "/") + (if trailing then "/" else ""), '/'), absolute) == ks
  {
    var body := Text.Join(ks, "/");
    Text.JoinSplit(ks, '/');
    ResolveIdentity(ks, absolute);
    if trailing {
      Text.SplitConcat(body, "", '/');
      assert body + "/" == body + ['/'] + "";
      assert Text.Split("", '/') == [""];
      ResolveConcat([], ks, [""], absolute);
    } else {
      assert body + "" == body;
    }
  }

  /** A path behind a separator resolves as the path does at the root. */
  lemma SegmentsBehindSeparator(rest: string)
    ensures Segments("/" + rest) == Resolve([], Text.Split(rest, '/'), true)
  {
    assert "/" + rest == "" + ['/'] + rest;
    Text.SplitConcat("", rest, '/');
    assert Text.Split("", '/') == [""];
    ResolveConcat([], [""], Text.Split(rest, '/'), true);
  }

  /** A join of well-formed segments, behind a separator when `absolute` and followed by
      one when `trailing`, resolves to those segments. */
  lemma JoinedSegments(ks: seq<string>, absolute: bool, trailing: bool)
    requires ks != [] && WellFormed(ks) && (absolute ==> ".." !in ks)
    ensures var q := (if absolute then "/" else "") + Text.Join(ks, "/") + (if trailing then "/" else "");
      Segments(q) == ks && IsAbsolute(q) == absolute
  {
    var body := Text.Join(ks, "/");
    var rest := body + (if trailing then "/" else "");
    JoinedBody(ks, trailing, absolute);
    if absolute {
      SegmentsBehindSeparator(rest);
      assert "/" + body + (if trailing then "/" else "") == "/" + rest;
    } else {
      Text.JoinStartsWithFirst(ks, "/");
      assert rest[0] == body[0] == ks[0][0];
      assert ks[0][0] in ks[0];
      assert "" + body + (if trailing then "/" else "") == rest;
    }
  }

  /** Normalizing keeps what a path resolves to, and whether it is absolute. */
  lemma NormalizeSegments(p: string)
    ensures Segments(Normalize(p)) == Segments(p)
    ensures p != "" ==> IsAbsolute(Normalize(p)) == IsAbsolute(p)
  {
    EmptyNormalForms();
    if p == "" {
      assert Text.Split(p, '/') == [""];
    } else {
      var ks := Segments(p);
      SegmentsWellFormed(p);
      if ks == [] {
        assert Text.Join(ks, "/") == "";
      } else {
        Text.JoinStartsWithFirst(ks, "/");
        JoinedSegments(ks, IsAbsolute(p), p[|p| - 1] == '/');
      }
    }
  }

  /** The segments of a path split at a separator: those of its head, then the tail's
      resolved on top of them. */
  lemma SegmentsOfJoin(a: string, b: string)
    requires a != ""
    ensures Segments(a + "/" + b) == Resolve(Segments(a), Text.Split(b, '/'), IsAbsolute(a))
  {
    Text.SplitConcat(a, b, '/');
    assert a + "/" + b == a + ['/'] + b;
    ResolveConcat([], Text.Split(a, '/'), Text.Split(b, '/'), IsAbsolute(a));
  }

  /** `path.join` onto a directory of a path without parent segments resolves to the
      directory's segments followed by the path's names. */
  lemma JoinNormalizedSegments(dir: string, x: string)
    requires NoParent(x)
    ensures Segments(JoinNormalized(dir, x)) == Segments(dir) + Segments(x)
  {
    SegmentsWithoutParent(x);
    EmptySegments();
    if dir == "" {
      if x != "" {
        NormalizeSegments(x);
      }
    } else if x == "" {
      NormalizeSegments(dir);
    } else {
      JoinedWithoutParent(dir, x);
    }
  }

  /** Without parent segments, a path resolves to its names. */
  lemma SegmentsWithoutParent(x: string)
    requires NoParent(x)
    ensures Segments(x) == Names(Text.Split(x, '/'))
  {
    ResolveWithoutParent([], Text.Split(x, '/'), IsAbsolute(x));
  }

  /** The empty path and "." resolve to nothing. */
  lemma EmptySegments()
    ensures Segments("") == [] && Segments(".") == []
  {
    assert Text.Split("", '/') == [""];
    SplitPiece(".");
    assert Resolve([], ["."], false) == [];
  }

  /** The step of `JoinNormalizedSegments` for two non-empty parts. */
  lemma JoinedWithoutParent(dir: string, x: string)
    requires dir != "" && x != "" && NoParent(x)
    ensures Segments(Normalize(dir + "/" + x)) == Segments(dir) + Names(Text.Split(x, '/'))
  {
    NormalizeSegments(dir + "/" + x);
    SegmentsOfJoin(dir, x);
    ResolveWithoutParent(Segments(dir), Text.Split(x, '/'), IsAbsolute(dir));
  }

  /** A path without parent segments joined onto a directory stays under it. */
  lemma JoinStaysUnder(dir: string, x: string)
    requires NoParent(x)
    ensures Under(JoinNormalized(dir, x), dir)
  {
    JoinNormalizedSegments(dir, x);
  }

  /** A prefix of a path cut at a separator has no parent segment when the path has none. */
  lemma NoParentBeforeSeparator(p: string, i: nat)
    requires NoParent(p) && i < |p| && p[i] == '/'
    ensures NoParent(p[..i])
  {
    assert p == p[..i] + ['/'] + p[i + 1..];
    Text.SplitConcat(p[..i], p[i + 1..], '/');
  }

  /** The directory of a path without parent segments has none. */
  lemma DirNoParent(p: string)
    requires NoParent(p)
    ensures NoParent(Dir(p))
  {
    match LastIndexOf(p, '/')
    case None =>
      assert Text.Split("", '/') == [""];
    case Some(i) =>
      if i == 0 {
        assert Text.Split("/", '/') == ["", ""];
      } else {
        NoParentBeforeSeparator(p, i);
      }
  }

  /** A normalized path with segments left: its segments joined, behind a separator when
      it is absolute and followed by one when it ends with one. */
  lemma NormalizeShape(p: string, ks: seq<string>)
    requires p != "" && ks == Segments(p) && ks != []
    ensures Normalize(p) == (if IsAbsolute(p) then "/" else "") + Text.Join(ks, "/") + (if p[|p| - 1] == '/' then "/" else "")
  {
    Text.JoinStartsWithFirst(ks, "/");
    SegmentsWellFormed(p);
  }

  /** The last of several joined segments is the base name of the join. */
  lemma BaseOfJoined(pre: string, ds: seq<string>, name: string)
    requires '/' !in name && (pre == "" || pre == "/")
    ensures Base(pre + Text.Join(ds + [name], "/")) == name
  {
    if ds == [] {
      assert ds + [name] == [name];
      if pre == "" {
        assert LastIndexOf(name, '/').None?;
      } else {
        BaseAfterSeparator("", name);
      }
    } else {
      Text.JoinSnoc(ds, name, "/");
      assert pre + Text.Join(ds + [name], "/") == (pre + Text.Join(ds, "/")) + "/" + name;
      BaseAfterSeparator(pre + Text.Join(ds, "/"), name);
    }
  }

  /** A name joined onto a directory: the directory's segments and the name, joined. */
  lemma JoinNormalizedShape(dir: string, name: string)
    requires dir != "" && IsName(name) && '/' !in name
    ensures JoinNormalized(dir, name) == (if IsAbsolute(dir) then "/" else "") + Text.Join(Segments(dir) + [name], "/")
  {
    var q := dir + "/" + name;
    var ks := Segments(dir) + [name];
    SplitPiece(name);
    JoinedWithoutParent(dir, name);
    NormalizeSegments(q);
    assert Names([name]) == [name];
    assert q[|q| - 1] == name[|name| - 1];
    assert IsAbsolute(q) == IsAbsolute(dir);
    NormalizeShape(q, ks);
  }

  /** A name joined onto a directory is the base name of the result. */
  lemma BaseOfJoinNormalized(dir: string, name: string)
    requires dir != "" && IsName(name) && '/' !in name
    ensures Base(JoinNormalized(dir, name)) == name
  {
    JoinNormalizedShape(dir, name);
    BaseOfJoined(if IsAbsolute(dir) then "/" else "", Segments(dir), name);
  }
}
