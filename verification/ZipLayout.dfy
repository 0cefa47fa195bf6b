/**
 The layout of the album ZIP in bot/telegram_bot.go: the common root of the files and the entry names made
 relative to it. A path is absolute and clean: its components, none empty, with a slash, "." or "..".
 */
module ZipLayout {
  import opened Options

  type Path = seq<string>

  predicate CleanName(c: string) {
    c != "" && '/' !in c && c != "." && c != ".."
  }

  predicate CleanPath(p: Path) {
    forall i :: 0 <= i < |p| ==> CleanName(p[i])
  }

  /** The parent; the root directory is its own. */
  function Dir(p: Path): Path {
    if p == [] then [] else p[..|p| - 1]
  }

  /** A component that strings.HasPrefix(rel, "..") takes for a step up. */
  predicate Dotted(c: string) {
    |c| >= 2 && c[..2] == ".."
  }

  /** isParentDir: child is below parent, and the relative path does not begin with two dots. */
  predicate IsParentDir(parent: Path, child: Path) {
    parent <= child && (parent == child || !Dotted(child[|parent|]))
  }

  // ---- the common root ----------------------------------------------------

  /** The inner loop: up from root until it counts as a parent of dir. */
  function Climb(root: Path, dir: Path): (r: Path)
    ensures r <= root
    decreases |root|
  {
    if IsParentDir(root, dir) || root == [] then root else Climb(Dir(root), dir)
  }

  function ClimbAll(root: Path, paths: seq<Path>): Path
    decreases |paths|
  {
    if paths == [] then root else ClimbAll(Climb(root, Dir(paths[0])), paths[1..])
  }

  function CommonRoot(paths: seq<Path>): Path
    requires paths != []
  {
    ClimbAll(Dir(paths[0]), paths[1..])
  }

  method CommonZipRoot(paths: seq<Path>) returns (root: Option<Path>)
    ensures root == if paths == [] then None else Some(CommonRoot(paths))
  {
    if paths == [] {
      return None;
    }
    var r := Dir(paths[0]);
    for i := 1 to |paths|
      invariant ClimbAll(r, paths[i..]) == CommonRoot(paths)
    {
      assert paths[i..][1..] == paths[i + 1..];
      var dir := Dir(paths[i]);
      ghost var before := r;
      while !IsParentDir(r, dir)
        invariant Climb(r, dir) == Climb(before, dir)
        decreases |r|
      {
        var parent := Dir(r);
        if parent == r {
          RootStays(paths[i..]);
          return Some(r);
        }
        r := parent;
      }
    }
    return Some(r);
  }

  /** At the top there is nothing more to climb. */
  lemma {:induction false} RootStays(paths: seq<Path>)
    ensures ClimbAll([], paths) == []
    decreases |paths|
  {
    if paths != [] {
      RootStays(paths[1..]);
    }
  }

  predicate CommonAncestor(a: Path, paths: seq<Path>) {
    forall i :: 0 <= i < |paths| ==> a <= Dir(paths[i])
  }

  lemma {:induction false} ClimbReaches(root: Path, dir: Path)
    ensures Climb(root, dir) <= dir
    ensures IsParentDir(Climb(root, dir), dir) || Climb(root, dir) == []
    decreases |root|
  {
    if !IsParentDir(root, dir) && root != [] {
      ClimbReaches(Dir(root), dir);
    }
  }

  /** The climb does not pass a directory that counts as a parent. */
  lemma {:induction false} ClimbStopsAt(root: Path, dir: Path, a: Path)
    requires a <= root && (IsParentDir(a, dir) || a == [])
    ensures a <= Climb(root, dir)
    decreases |root|
  {
    if !IsParentDir(root, dir) && root != [] {
      ClimbStopsAt(Dir(root), dir, a);
    }
  }

  lemma {:induction false} ClimbAllReaches(root: Path, paths: seq<Path>)
    ensures ClimbAll(root, paths) <= root && CommonAncestor(ClimbAll(root, paths), paths)
    decreases |paths|
  {
    if paths != [] {
      var next := Climb(root, Dir(paths[0]));
      ClimbReaches(root, Dir(paths[0]));
      ClimbAllReaches(next, paths[1..]);
      assert forall i :: 0 < i < |paths| ==> paths[i] == paths[1..][i - 1];
    }
  }

  lemma {:induction false} ClimbAllStopsAt(root: Path, paths: seq<Path>, a: Path)
    requires a <= root && (a == [] || forall i :: 0 <= i < |paths| ==> IsParentDir(a, Dir(paths[i])))
    ensures a <= ClimbAll(root, paths)
    decreases |paths|
  {
    if paths != [] {
      ClimbStopsAt(root, Dir(paths[0]), a);
      ClimbAllStopsAt(Climb(root, Dir(paths[0])), paths[1..], a);
    }
  }

  /** Every file lies below the root. */
  lemma RootIsCommon(paths: seq<Path>)
    requires paths != []
    ensures CommonAncestor(CommonRoot(paths), paths)
  {
    ClimbAllReaches(Dir(paths[0]), paths[1..]);
    assert forall i :: 0 < i < |paths| ==> paths[i] == paths[1..][i - 1];
  }

  ghost predicate Deepest(a: Path, paths: seq<Path>) {
    CommonAncestor(a, paths) && forall b: Path :: CommonAncestor(b, paths) ==> b <= a
  }

  function Meet(a: Path, b: Path): Path {
    if a == [] || b == [] || a[0] != b[0] then [] else [a[0]] + Meet(a[1..], b[1..])
  }

  /** The longest prefix that all directories share. */
  function MeetAll(paths: seq<Path>): Path
    requires paths != []
    decreases |paths|
  {
    if |paths| == 1 then Dir(paths[0]) else Meet(MeetAll(paths[..|paths| - 1]), Dir(paths[|paths| - 1]))
  }

  lemma {:induction false} MeetIsLongest(a: Path, b: Path, c: Path)
    ensures Meet(a, b) <= a && Meet(a, b) <= b
    ensures c <= a && c <= b ==> c <= Meet(a, b)
  {
    if a != [] && b != [] && a[0] == b[0] {
      MeetIsLongest(a[1..], b[1..], if c == [] then [] else c[1..]);
      assert a == [a[0]] + a[1..] && b == [b[0]] + b[1..];
      assert c != [] ==> c == [c[0]] + c[1..];
    }
  }

  lemma {:induction false} MeetAllIsLongest(paths: seq<Path>, c: Path)
    requires paths != []
    ensures CommonAncestor(MeetAll(paths), paths)
    ensures CommonAncestor(c, paths) ==> c <= MeetAll(paths)
    decreases |paths|
  {
    if |paths| > 1 {
      var before, last := paths[..|paths| - 1], Dir(paths[|paths| - 1]);
      MeetAllIsLongest(before, c);
      MeetIsLongest(MeetAll(before), last, c);
      AncestorOfMore(c, paths);
      AncestorOfMore(MeetAll(paths), paths);
      AncestorAbove(MeetAll(paths), MeetAll(before), before);
    }
  }

  lemma AncestorOfMore(c: Path, paths: seq<Path>)
    requires paths != []
    ensures CommonAncestor(c, paths) <==> CommonAncestor(c, paths[..|paths| - 1]) && c <= Dir(paths[|paths| - 1])
  {
    var before := paths[..|paths| - 1];
    assert forall i :: 0 <= i < |before| ==> before[i] == paths[i];
  }

  lemma AncestorAbove(c: Path, b: Path, paths: seq<Path>)
    requires c <= b && CommonAncestor(b, paths)
    ensures CommonAncestor(c, paths)
  {
  }

  lemma MeetAllIsDeepest(paths: seq<Path>)
    requires paths != []
    ensures Deepest(MeetAll(paths), paths)
  {
    MeetAllIsLongest(paths, []);
    forall c: Path | CommonAncestor(c, paths) ensures c <= MeetAll(paths) {
      MeetAllIsLongest(paths, c);
    }
  }

  lemma DeepestIsMeet(paths: seq<Path>, a: Path)
    requires paths != []
    ensures Deepest(a, paths) <==> a == MeetAll(paths)
  {
    MeetAllIsDeepest(paths);
  }

  /** Ancestors of top, each within the one before and not above a, that count as parents of the files' directories one by one. */
  predicate Stays(a: Path, top: Path, paths: seq<Path>, xs: seq<Path>)
    decreases |paths|
  {
    if paths == [] then xs == []
    else
      && xs != [] && a <= xs[0] && xs[0] <= top
      && (xs[0] == [] || IsParentDir(xs[0], Dir(paths[0])))
      && Stays(a, xs[0], paths[1..], xs[1..])
  }

  /** Such a chain of ancestors, as a whole. */
  predicate IsChain(xs: seq<Path>, a: Path, top: Path, paths: seq<Path>) {
    Stays(a, top, paths, xs)
  }

  lemma StaysBelowMore(a: Path, top: Path, higher: Path, paths: seq<Path>, xs: seq<Path>)
    requires Stays(a, top, paths, xs) && top <= higher
    ensures Stays(a, higher, paths, xs)
  {
  }

  lemma {:induction false} StaysAbove(a: Path, top: Path, paths: seq<Path>, xs: seq<Path>)
    requires a <= top && Stays(a, top, paths, xs)
    ensures a <= ClimbAll(top, paths)
    decreases |paths|
  {
    if paths != [] {
      var next := Climb(top, Dir(paths[0]));
      ClimbStopsAt(top, Dir(paths[0]), xs[0]);
      StaysBelowMore(a, xs[0], next, paths[1..], xs[1..]);
      StaysAbove(a, next, paths[1..], xs[1..]);
    }
  }

  /** The climb's own stops are such ancestors. */
  function ClimbStops(top: Path, paths: seq<Path>): seq<Path>
    decreases |paths|
  {
    if paths == [] then [] else [Climb(top, Dir(paths[0]))] + ClimbStops(Climb(top, Dir(paths[0])), paths[1..])
  }

  lemma {:induction false} ClimbStays(a: Path, top: Path, paths: seq<Path>)
    requires a <= ClimbAll(top, paths)
    ensures Stays(a, top, paths, ClimbStops(top, paths))
    decreases |paths|
  {
    if paths != [] {
      var next := Climb(top, Dir(paths[0]));
      ClimbReaches(top, Dir(paths[0]));
      ClimbAllReaches(next, paths[1..]);
      ClimbStays(a, next, paths[1..]);
      assert ClimbStops(top, paths)[1..] == ClimbStops(next, paths[1..]);
    }
  }

  lemma AboveIff(a: Path, top: Path, paths: seq<Path>)
    requires a <= top
    ensures a <= ClimbAll(top, paths) <==> exists xs :: IsChain(xs, a, top, paths)
  {
    if a <= ClimbAll(top, paths) {
      ClimbStays(a, top, paths);
      assert IsChain(ClimbStops(top, paths), a, top, paths);
    }
    forall xs | IsChain(xs, a, top, paths) ensures a <= ClimbAll(top, paths) {
      StaysAbove(a, top, paths, xs);
    }
  }

  /** The root is the deepest common ancestor exactly when it is not above it. */
  lemma DeepestIfBelow(paths: seq<Path>)
    requires paths != []
    ensures MeetAll(paths) <= Dir(paths[0])
    ensures Deepest(CommonRoot(paths), paths) <==> MeetAll(paths) <= CommonRoot(paths)
  {
    RootIsCommon(paths);
    MeetAllIsLongest(paths, CommonRoot(paths));
    DeepestIsMeet(paths, CommonRoot(paths));
  }

  /** For any number of files in any order: exactly when the root is the deepest common ancestor. */
  lemma RootIsDeepestIff(paths: seq<Path>)
    requires paths != []
    ensures Deepest(CommonRoot(paths), paths) <==> exists xs :: IsChain(xs, MeetAll(paths), Dir(paths[0]), paths[1..])
  {
    DeepestIfBelow(paths);
    AboveIff(MeetAll(paths), Dir(paths[0]), paths[1..]);
  }

  /** One ancestor that counts as a parent of all the directories will do. */
  lemma {:induction false} StaysAt(a: Path, top: Path, paths: seq<Path>)
    requires a <= top && (a == [] || forall i :: 0 <= i < |paths| ==> IsParentDir(a, Dir(paths[i])))
    ensures exists xs :: IsChain(xs, a, top, paths)
    decreases |paths|
  {
    ClimbAllStopsAt(top, paths, a);
    ClimbStays(a, top, paths);
    assert IsChain(ClimbStops(top, paths), a, top, paths);
  }

  /** In particular when the deepest one is "/" or counts as a parent of every later file's directory. */
  lemma RootIsDeepest(paths: seq<Path>)
    requires paths != []
    requires MeetAll(paths) == [] || forall i :: 1 <= i < |paths| ==> IsParentDir(MeetAll(paths), Dir(paths[i]))
    ensures Deepest(CommonRoot(paths), paths)
  {
    MeetAllIsDeepest(paths);
    StaysAt(MeetAll(paths), Dir(paths[0]), paths[1..]);
    RootIsDeepestIff(paths);
  }

  /** In particular when no component begins with two dots. */
  lemma RootIsDeepestWithoutDots(paths: seq<Path>)
    requires paths != [] && forall i, j :: 0 <= i < |paths| && 0 <= j < |paths[i]| ==> !Dotted(paths[i][j])
    ensures Deepest(CommonRoot(paths), paths)
  {
    var a := MeetAll(paths);
    MeetAllIsDeepest(paths);
    forall i | 1 <= i < |paths| ensures IsParentDir(a, Dir(paths[i])) {
      var d := Dir(paths[i]);
      assert a <= d;
      if a != d {
        assert d[|a|] == paths[i][|a|];
      }
    }
    RootIsDeepest(paths);
  }

  lemma RootOfTwo(p: Path, q: Path)
    ensures CommonRoot([p, q]) == Climb(Dir(p), Dir(q))
  {
    var r := Climb(Dir(p), Dir(q));
    assert [p, q][1..] == [q] && [q][1..] == [];
    assert ClimbAll(Dir(p), [q]) == ClimbAll(r, []) == r;
  }

  lemma RootOfThree(p: Path, q: Path, s: Path)
    ensures CommonRoot([p, q, s]) == Climb(Climb(Dir(p), Dir(q)), Dir(s))
  {
    var r := Climb(Dir(p), Dir(q));
    assert [p, q, s][1..] == [q, s] && [q, s][1..] == [s] && [s][1..] == [];
    assert ClimbAll(Dir(p), [q, s]) == ClimbAll(r, [s]) == ClimbAll(Climb(r, Dir(s)), []);
  }

  /** For two files there is no choice: the ancestor in question is the deepest one itself. */
  lemma DeepestForTwoIff(p: Path, q: Path)
    ensures var a := Meet(Dir(p), Dir(q));
            Deepest(CommonRoot([p, q]), [p, q]) <==> a == [] || IsParentDir(a, Dir(q))
  {
    assert [p, q][..1] == [p] && MeetAll([p]) == Dir(p) && MeetAll([p, q]) == Meet(Dir(p), Dir(q)) && [p, q][1..] == [q];
    RootIsDeepestIff([p, q]);
    StaysForOneIff(Dir(p), q);
  }

  lemma StaysForOneIff(top: Path, q: Path)
    ensures var a := Meet(top, Dir(q));
            (exists xs :: IsChain(xs, a, top, [q])) <==> a == [] || IsParentDir(a, Dir(q))
  {
    var a := Meet(top, Dir(q));
    MeetIsLongest(top, Dir(q), []);
    assert [q][1..] == [] && [a][1..] == [];
    if a == [] || IsParentDir(a, Dir(q)) {
      assert IsChain([a], a, top, [q]);
    }
    forall xs | IsChain(xs, a, top, [q]) ensures a == [] || IsParentDir(a, Dir(q)) {
      MeetIsLongest(top, Dir(q), xs[0]);
      assert xs[0] == a;
    }
  }

  /** With more files it depends on their order: the same three files, two roots. */
  lemma OrderMatters()
    ensures var b, c, x := ["a", "..b", "c", "1"], ["a", "..b", "d", "2"], ["a", "x", "3"];
            CommonRoot([b, c, x]) == ["a"] && CommonRoot([x, b, c]) == []
  {
    var b, c, x := ["a", "..b", "c", "1"], ["a", "..b", "d", "2"], ["a", "x", "3"];
    RootOfThree(b, c, x);
    RootOfThree(x, b, c);
    assert Dir(b) == ["a", "..b", "c"] && Dir(c) == ["a", "..b", "d"] && Dir(x) == ["a", "x"];
    assert Dir(["a", "..b", "c"]) == ["a", "..b"] && Dir(["a", "..b"]) == ["a"] && Dir(["a", "x"]) == ["a"] && Dir(["a"]) == [];
    assert "..b"[..2] == ".." && Dotted("..b") && !Dotted("d") && !Dotted("x");
    assert ["a", "..b", "c"][2] != ["a", "..b", "d"][2];
    assert Climb(["a", "..b", "c"], Dir(c)) == Climb(["a", "..b"], Dir(c)) == ["a", "..b"];
    assert ["a", "..b"][1] != ["a", "x"][1];
    assert Climb(["a", "..b"], Dir(x)) == Climb(["a"], Dir(x)) == ["a"];
    assert ["a", "x"][1] != ["a", "..b", "c"][1];
    assert Climb(["a", "x"], Dir(b)) == Climb(["a"], Dir(b)) == Climb([], Dir(b)) == [];
    assert Climb([], Dir(c)) == [];
  }

  // ---- entry names --------------------------------------------------------

  /** The components of the name a file gets in the archive. */
  function EntryName(root: Path, p: Path): Path
  {
    if p == [] then []
    else if root <= p && root != p && !Dotted(p[|root|]) then p[|root|..] else [p[|p| - 1]]
  }

  /** A file below root whose relative path the code takes for one that leaves it. */
  predicate Misread(root: Path, p: Path)
    requires root < p
  {
    Dotted(p[|root|])
  }

  /** Two files get the same name exactly when one is misread and both names are the shared base name. */
  lemma NamesCollideIff(root: Path, p: Path, q: Path)
    requires root < p && root < q && p != q
    ensures EntryName(root, p) == EntryName(root, q) <==>
            && (Misread(root, p) || Misread(root, q)) && p[|p| - 1] == q[|q| - 1]
            && (Misread(root, p) || |p| == |root| + 1) && (Misread(root, q) || |q| == |root| + 1)
  {
    var a, b := p[|root|..], q[|root|..];
    assert p == root + a && q == root + b && a != b;
    assert a[|a| - 1] == p[|p| - 1] && b[|b| - 1] == q[|q| - 1];
    assert |a| == 1 ==> a == [p[|p| - 1]];
    assert |b| == 1 ==> b == [q[|q| - 1]];
  }

  /** Distinct files, distinct names, when no component begins with two dots. */
  lemma NamesDistinct(paths: seq<Path>, i: nat, j: nat)
    requires i < |paths| && j < |paths| && paths[i] != [] && paths[j] != [] && paths[i] != paths[j]
    requires forall i, k :: 0 <= i < |paths| && 0 <= k < |paths[i]| ==> !Dotted(paths[i][k])
    ensures EntryName(CommonRoot(paths), paths[i]) != EntryName(CommonRoot(paths), paths[j])
  {
    var root := CommonRoot(paths);
    RootIsCommon(paths);
    assert root <= Dir(paths[i]) && root <= Dir(paths[j]);
    NamesCollideIff(root, paths[i], paths[j]);
  }

  /** A directory name that begins with two dots is enough for two files to share an entry. */
  lemma NamesCanCollide()
    ensures var p, q := ["a", "..b", "x"], ["a", "x"];
            CommonRoot([p, q]) == ["a"] && EntryName(["a"], p) == EntryName(["a"], q)
  {
    var p, q := ["a", "..b", "x"], ["a", "x"];
    RootOfTwo(p, q);
    assert Dir(p) == ["a", "..b"] && Dir(q) == ["a"] && Dir(["a", "..b"]) == ["a"];
    assert "..b"[..2] == ".." && Dotted("..b");
    assert Climb(["a", "..b"], ["a"]) == Climb(["a"], ["a"]) == ["a"];
    NamesCollideIff(["a"], p, q);
  }

  /** The name as the archive holds it. */
  function Slashed(name: Path): string {
    if name == [] then "/"
    else if |name| == 1 then name[0]
    else name[0] + "/" + Slashed(name[1..])
  }

  lemma {:induction false} FirstSlash(c: string, s: string, d: string, t: string)
    requires '/' !in c && '/' !in d && c + "/" + s == d + "/" + t
    ensures c == d && s == t
  {
    var x := c + "/" + s;
    assert x[|c|] == '/' && x == d + "/" + t && x[|d|] == '/';
    assert forall k :: 0 <= k < |c| ==> x[k] == c[k] != '/';
    assert forall k :: 0 <= k < |d| ==> x[k] == d[k] != '/';
    assert |c| == |d|;
    assert c == x[..|c|] == d;
    assert s == x[|c| + 1..] == t;
  }

  lemma HasSlash(a: Path)
    requires CleanPath(a) && a != []
    ensures '/' in Slashed(a) <==> |a| > 1
  {
    assert CleanName(a[0]);
    if |a| > 1 {
      assert Slashed(a)[|a[0]|] == '/';
    }
  }

  /** Different component lists are different strings. */
  lemma {:induction false} SlashedInjective(a: Path, b: Path)
    requires CleanPath(a) && CleanPath(b) && a != [] && b != [] && Slashed(a) == Slashed(b)
    ensures a == b
  {
    assert CleanName(a[0]) && CleanName(b[0]);
    HasSlash(a);
    HasSlash(b);
    if |a| == 1 && |b| == 1 {
      assert a == [a[0]] && b == [b[0]];
    } else {
      FirstSlash(a[0], Slashed(a[1..]), b[0], Slashed(b[1..]));
      SlashedInjective(a[1..], b[1..]);
      assert a == [a[0]] + a[1..] && b == [b[0]] + b[1..];
    }
  }

  lemma EntryIsClean(root: Path, p: Path)
    requires CleanPath(p) && p != []
    ensures CleanPath(EntryName(root, p)) && EntryName(root, p) != []
  {
    assert CleanName(p[|p| - 1]);
  }

  /** The same for the names as strings. */
  lemma ArchiveNamesDistinct(paths: seq<Path>, i: nat, j: nat)
    requires i < |paths| && j < |paths| && paths[i] != [] && paths[j] != [] && paths[i] != paths[j]
    requires CleanPath(paths[i]) && CleanPath(paths[j])
    requires forall i, k :: 0 <= i < |paths| && 0 <= k < |paths[i]| ==> !Dotted(paths[i][k])
    ensures Slashed(EntryName(CommonRoot(paths), paths[i])) != Slashed(EntryName(CommonRoot(paths), paths[j]))
  {
    var a, b := EntryName(CommonRoot(paths), paths[i]), EntryName(CommonRoot(paths), paths[j]);
    NamesDistinct(paths, i, j);
    EntryIsClean(CommonRoot(paths), paths[i]);
    EntryIsClean(CommonRoot(paths), paths[j]);
    assert Slashed(a) == Slashed(b) ==> a == b by {
      if Slashed(a) == Slashed(b) {
        SlashedInjective(a, b);
      }
    }
  }

  // ---- the archive --------------------------------------------------------

  datatype Kind = Missing | Directory | File

  /** One archive entry: its name and the file it holds. */
  datatype Entry = Entry(name: string, file: Path)

  function Entries(root: Path, paths: seq<Path>, kind: Path -> Kind): seq<Entry>
    decreases |paths|
  {
    if paths == [] then []
    else Entries(root, paths[..|paths| - 1], kind) +
         var p := paths[|paths| - 1];
         if kind(p) == File then [Entry(Slashed(EntryName(root, p)), p)] else []
  }

  predicate AnyOf(paths: seq<Path>, kind: Path -> Kind, k: Kind) {
    exists i :: 0 <= i < |paths| && kind(paths[i]) == k
  }

  lemma AnyOfNext(paths: seq<Path>, kind: Path -> Kind, k: Kind, i: nat)
    requires i < |paths|
    ensures AnyOf(paths[..i + 1], kind, k) <==> AnyOf(paths[..i], kind, k) || kind(paths[i]) == k
    ensures kind(paths[i]) == k ==> AnyOf(paths, kind, k)
  {
    var now, before := paths[..i + 1], paths[..i];
    assert now[i] == paths[i] && forall j :: 0 <= j < i ==> now[j] == before[j];
  }

  lemma {:induction false} NoEntriesIff(root: Path, paths: seq<Path>, kind: Path -> Kind)
    ensures Entries(root, paths, kind) == [] <==> !AnyOf(paths, kind, File)
    decreases |paths|
  {
    if paths != [] {
      var i := |paths| - 1;
      NoEntriesIff(root, paths[..i], kind);
      AnyOfNext(paths, kind, File, i);
      assert paths[..i + 1] == paths;
    }
  }

  lemma EntriesSnoc(root: Path, paths: seq<Path>, kind: Path -> Kind, i: nat)
    requires i < |paths|
    ensures Entries(root, paths[..i + 1], kind) ==
            Entries(root, paths[..i], kind) + if kind(paths[i]) == File then [Entry(Slashed(EntryName(root, paths[i])), paths[i])] else []
  {
    assert paths[..i + 1][..i] == paths[..i];
  }

  /** Every file of the list in order, unless a path cannot be read or there is no file. */
  method CreateZipFromPaths(paths: seq<Path>, kind: Path -> Kind) returns (zip: Option<seq<Entry>>)
    ensures zip == None <==> AnyOf(paths, kind, Missing) || !AnyOf(paths, kind, File)
    ensures zip.Some? ==> zip.value == Entries(CommonRoot(paths), paths, kind)
  {
    var root := CommonZipRoot(paths);
    if root == None {
      return None;
    }
    var entries: seq<Entry> := [];
    for i := 0 to |paths|
      invariant !AnyOf(paths[..i], kind, Missing)
      invariant entries == Entries(root.value, paths[..i], kind)
    {
      var p := paths[i];
      EntriesSnoc(root.value, paths, kind, i);
      AnyOfNext(paths, kind, Missing, i);
      if kind(p) == Missing {
        return None;
      }
      if kind(p) == File {
        entries := entries + [Entry(Slashed(EntryName(root.value, p)), p)];
      }
    }
    assert paths[..|paths|] == paths;
    NoEntriesIff(root.value, paths, kind);
    if entries == [] {
      return None;
    }
    return Some(entries);
  }
}
