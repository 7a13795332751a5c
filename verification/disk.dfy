/** Local paths, taken lexically on POSIX, and the files a download writes. */
module Disk {
  import opened Text
  import opened Layout
  import opened S3

  /** A path from the root, by its segments. */
  type Path = seq<string>

  function Split(s: string): (segs: seq<string>)
    ensures |segs| > 0 && forall x :: x in segs ==> SlashFree(x)
    decreases |s|
  {
    var i := IndexOf(s, '/');
    if i == |s| then [s] else [s[..i]] + Split(s[i + 1..])
  }

  /** A segment that stands for a name. */
  predicate Name(x: string) { SlashFree(x) && x !in {"", ".", ".."} }

  predicate Names(segs: seq<string>) { forall x :: x in segs ==> Name(x) }

  /** Following `segs` from `at`: empty segments and `.` stay, `..` leaves. */
  function Walk(at: Path, segs: seq<string>): (r: Path)
    requires Names(at) && forall x :: x in segs ==> SlashFree(x)
    ensures Names(r)
    decreases |segs|
  {
    if segs == [] then at
    else
      var x := segs[0];
      var next := if x in {"", "."} then at
                  else if x == ".." then (if at == [] then [] else at[..|at| - 1])
                  else at + [x];
      Walk(next, segs[1..])
  }

  /** `os.path.realpath` of a path given from the working directory `cwd`. */
  function RealPath(cwd: Path, path: string): (r: Path)
    requires Names(cwd)
    ensures Names(r)
  {
    Walk(if "/" <= path then [] else cwd, Split(path))
  }

  function Tail(p: Path): string {
    if p == [] then "" else "/" + p[0] + Tail(p[1..])
  }

  function Render(p: Path): string { if p == [] then "/" else Tail(p) }

  /** The escape check of `download_prefix`. */
  predicate Inside(root: Path, local: Path) {
    Render(local) == Render(root) || Render(root) + "/" <= Render(local)
  }

  lemma {:induction false} TailPrefix(p: Path, q: Path, rest: string)
    requires Names(p) && Names(q)
    requires Tail(p) + rest == Tail(q) && (rest == "" || rest[0] == '/')
    ensures p <= q
  {
    if p != [] {
      assert q != [];
      assert p[0] in p && q[0] in q;
      var r := Tail(p[1..]) + rest;
      assert "/" + (p[0] + r) == "/" + (q[0] + Tail(q[1..])) by {
        assert Tail(p) + rest == "/" + (p[0] + r);
        assert Tail(q) == "/" + (q[0] + Tail(q[1..]));
      }
      DropOne('/', p[0] + r, q[0] + Tail(q[1..]));
      CutAtSlash(p[0], r, q[0], Tail(q[1..]));
      TailPrefix(p[1..], q[1..], rest);
      assert p == [p[0]] + p[1..] && q == [q[0]] + q[1..];
    }
  }

  lemma DropOne(c: char, a: string, b: string)
    requires [c] + a == [c] + b
    ensures a == b
  {
    assert a == ([c] + a)[1..] && b == ([c] + b)[1..];
  }

  lemma CutAtSlash(x: string, r: string, y: string, t: string)
    requires SlashFree(x) && SlashFree(y) && x + r == y + t
    requires (r == "" || r[0] == '/') && (t == "" || t[0] == '/')
    ensures x == y && r == t
  {
    HeadEnds(x, r);
    HeadEnds(y, t);
    assert x == (x + r)[..|x|] && y == (y + t)[..|y|];
    assert r == (x + r)[|x|..] && t == (y + t)[|y|..];
  }

  lemma HeadEnds(name: string, rest: string)
    requires SlashFree(name) && (rest == "" || rest[0] == '/')
    ensures IndexOf(name + rest, '/') == |name|
  {
    var s := name + rest;
    assert forall j :: 0 <= j < |name| ==> s[j] == name[j] && name[j] in name;
    if rest != "" {
      assert s[|name|] == '/';
    }
  }

  lemma {:induction false} TailAppend(p: Path, q: Path)
    ensures Tail(p + q) == Tail(p) + Tail(q)
  {
    if p == [] {
      assert p + q == q;
    } else {
      assert (p + q)[1..] == p[1..] + q;
      TailAppend(p[1..], q);
    }
  }

  lemma TailShape(p: Path)
    requires Names(p) && p != []
    ensures |Tail(p)| >= 2 && Tail(p)[0] == '/' && Tail(p)[1] != '/'
    ensures Tail(p)[|Tail(p)| - 1] != '/'
  {
    var n := |p| - 1;
    var first, last := p[0], p[n];
    assert first in p && first[0] in first && last in p && last[|last| - 1] in last;
    TailAppend(p[..n], [last]);
    assert p == p[..n] + [last];
    assert Tail(p) == Tail(p[..n]) + ("/" + last);
    assert Tail(p) == "/" + (first + Tail(p[1..]));
  }

  /**
   * The check lets through exactly the root itself and what lies below it; below `/` it lets
   * nothing through.
   */
  lemma InsideMeansBelow(root: Path, local: Path)
    requires Names(root) && Names(local)
    ensures Inside(root, local) <==> local == root || (root != [] && root < local)
  {
    if root != [] { TailShape(root); }
    if local != [] { TailShape(local); }
    if root != [] && root < local {
      var q := local[|root|..];
      assert local == root + q;
      TailAppend(root, q);
      TailShape(local);
      assert Tail(q) == "/" + (q[0] + Tail(q[1..]));
      assert Tail(local) == (Tail(root) + "/") + (q[0] + Tail(q[1..]));
    } else if Inside(root, local) && root != [] {
      var rest := Tail(local)[|Tail(root)|..];
      assert Tail(local) == Tail(root) + rest;
      TailPrefix(root, local, rest);
    }
  }

  // ---- where a key lands ----

  lemma SplitCut(x: string, rest: string)
    requires SlashFree(x)
    ensures Split(x + ['/'] + rest) == [x] + Split(rest)
    ensures Split(x) == [x]
  {
    var s := x + ['/'] + rest;
    IndexOfAfter(x, '/', rest);
    assert s[..|x|] == x && s[|x| + 1..] == rest;
  }

  lemma CutAt(a: string, i: nat, b: string)
    requires i < |a| && a[i] == '/'
    ensures a == a[..i] + ['/'] + a[i + 1..]
    ensures a + "/" + b == a[..i] + ['/'] + (a[i + 1..] + "/" + b)
  {
  }

  lemma {:induction false} SplitJoin(a: string, b: string)
    ensures Split(a + "/" + b) == Split(a) + Split(b)
    decreases |a|
  {
    var i := IndexOf(a, '/');
    if i == |a| {
      SplitCut(a, b);
    } else {
      var x, c := a[..i], a[i + 1..];
      SplitJoin(c, b);
      CutAt(a, i, b);
      JoinStep(x, c, c + "/" + b, Split(b));
    }
  }

  lemma JoinStep(x: string, c: string, rest: string, more: seq<string>)
    requires SlashFree(x) && Split(rest) == Split(c) + more
    ensures Split(x + ['/'] + rest) == Split(x + ['/'] + c) + more
  {
    SplitCut(x, rest);
    SplitCut(x, c);
  }

  lemma TailStep(x: string, p: Path)
    requires p != []
    ensures x + Tail(p) == x + ['/'] + (p[0] + Tail(p[1..]))
    ensures [x] + p == [x] + ([p[0]] + p[1..])
  {
    var y := p[0] + Tail(p[1..]);
    SlashFirst(p[0], Tail(p[1..]));
    assert Tail(p) == ['/'] + y;
    Regroup(x, y);
    assert p == [p[0]] + p[1..];
  }

  lemma SlashFirst(y: string, z: string)
    ensures "/" + y + z == ['/'] + (y + z)
  {
  }

  lemma Regroup(x: string, y: string)
    ensures x + (['/'] + y) == x + ['/'] + y
  {
  }

  lemma {:induction false} SplitTail(x: string, p: Path)
    requires SlashFree(x) && Names(p)
    ensures Split(x + Tail(p)) == [x] + p
    decreases |p|
  {
    if p == [] {
      SplitCut(x, "");
      assert x + Tail(p) == x;
    } else {
      assert p[0] in p;
      SplitTail(p[0], p[1..]);
      SplitCut(x, p[0] + Tail(p[1..]));
      TailStep(x, p);
    }
  }

  lemma {:induction false} WalkNames(at: Path, segs: seq<string>, more: seq<string>)
    requires Names(at) && Names(segs) && forall x :: x in more ==> SlashFree(x)
    ensures Walk(at, segs + more) == Walk(at + segs, more)
    decreases |segs|
  {
    if segs == [] {
      assert segs + more == more && at + segs == at;
    } else {
      assert segs[0] in segs;
      assert (segs + more)[1..] == segs[1..] + more;
      assert at + segs == at + [segs[0]] + segs[1..];
      WalkNames(at + [segs[0]], segs[1..], more);
    }
  }

  /** The local path of a key whose remainder under the prefix is `rel`. */
  function LocalFor(root: Path, rel: string): (p: Path)
    requires Names(root)
    ensures Names(p)
  {
    RealPath([], PathJoin(Render(root), rel))
  }

  /** A relative path that a directory walk can yield. */
  predicate PlainRel(rel: string) { Names(Split(rel)) }

  lemma LeadingSlash(a: string, rel: string)
    requires rel == "" + ['/'] + a
    ensures !PlainRel(rel)
  {
    SplitCut("", a);
    assert Split(rel)[0] in Split(rel);
  }

  lemma EndingSlash(a: string, rel: string)
    requires rel == a + "/" + ""
    ensures !PlainRel(rel)
  {
    SplitJoin(a, "");
    SplitCut("", "");
    assert Split(rel)[|Split(a)|] in Split(rel);
  }

  lemma NoNameInNothing()
    ensures !PlainRel("")
  {
    SplitCut("", "");
    assert Split("")[0] in Split("");
  }

  lemma PlainRelShape(rel: string)
    requires PlainRel(rel)
    ensures rel != "" && rel[0] != '/' && rel[|rel| - 1] != '/'
  {
    if rel == "" {
      NoNameInNothing();
    } else {
      if rel[0] == '/' { LeadingSlash(rel[1..], rel); }
      if rel[|rel| - 1] == '/' { EndingSlash(rel[..|rel| - 1], rel); }
    }
  }

  lemma JoinedSegments(root: Path, rel: string)
    requires Names(root) && rel != "" && rel[0] != '/'
    ensures var joined := PathJoin(Render(root), rel);
            "/" <= joined && Split(joined) == [""] + root + Split(rel)
  {
    var joined := PathJoin(Render(root), rel);
    if root != [] {
      TailShape(root);
    }
    assert joined == Tail(root) + "/" + rel;
    SplitJoin(Tail(root), rel);
    SplitTail("", root);
    assert "" + Tail(root) == Tail(root);
  }

  lemma PlainRelLandsBelow(root: Path, rel: string)
    requires Names(root) && PlainRel(rel)
    ensures LocalFor(root, rel) == root + Split(rel)
  {
    PlainRelShape(rel);
    JoinedSegments(root, rel);
    NamesJoin(root, Split(rel));
    FollowNames(PathJoin(Render(root), rel), root + Split(rel));
  }

  lemma NamesJoin(p: Path, q: Path)
    requires Names(p) && Names(q)
    ensures Names(p + q) && [""] + p + q == [""] + (p + q)
  {
  }

  lemma FollowNames(path: string, segs: Path)
    requires "/" <= path && Split(path) == [""] + segs && Names(segs)
    ensures RealPath([], path) == segs
  {
    assert ([""] + segs)[1..] == segs;
    WalkNames([], segs, []);
    assert segs + [] == segs && [] + segs == segs;
  }

  lemma SplitParts(a: string)
    ensures var i := IndexOf(a, '/');
            if i == |a| then Split(a) == [a] else Split(a) == [a[..i]] + Split(a[i + 1..])
  {
  }

  lemma SameParts(x: string, xs: seq<string>, y: string, ys: seq<string>)
    requires [x] + xs == [y] + ys
    ensures x == y && xs == ys
  {
    assert x == ([x] + xs)[0] && xs == ([x] + xs)[1..];
    assert y == ([y] + ys)[0] && ys == ([y] + ys)[1..];
  }

  lemma {:induction false} SplitIsInjective(a: string, b: string)
    requires Split(a) == Split(b)
    ensures a == b
    decreases |a|
  {
    var i, j := IndexOf(a, '/'), IndexOf(b, '/');
    SplitParts(a);
    SplitParts(b);
    if i < |a| && j < |b| {
      SameParts(a[..i], Split(a[i + 1..]), b[..j], Split(b[j + 1..]));
      SplitIsInjective(a[i + 1..], b[j + 1..]);
      CutAt(a, i, "");
      CutAt(b, j, "");
    }
  }

  // ---- the files ----

  function ProperPrefixes(p: Path): set<Path> { set n: nat | n < |p| :: p[..n] }

  /** No path is both a file and a directory, and every file stands in directories. */
  ghost predicate Consistent(files: map<Path, Bytes>, dirs: set<Path>) {
    files.Keys !! dirs && [] in dirs &&
    forall p, n :: p in files && 0 <= n < |p| ==> p[..n] in dirs
  }

  class LocalDisk {
    var files: map<Path, Bytes>
    var dirs: set<Path>

    ghost predicate Valid()
      reads this
    {
      Consistent(files, dirs)
    }

    constructor ()
      ensures Valid() && files == map[] && dirs == {[]}
    {
      files, dirs := map[], {[]};
    }

    /** `os.makedirs(dirname(path), exist_ok=True)` and the write behind it. */
    method WriteFile(path: Path, data: Bytes) returns (ok: bool)
      requires Valid()
      modifies this
      ensures Valid()
      ensures ok <==> path !in old(dirs) && ProperPrefixes(path) !! old(files).Keys
      ensures ok ==> files == old(files)[path := data] && dirs == old(dirs) + ProperPrefixes(path)
      ensures !ok ==> files == old(files) && old(dirs) <= dirs <= old(dirs) + ProperPrefixes(path)
    {
      var parents := ProperPrefixes(path);
      if exists p :: p in parents && p in files {
        return false;
      }
      dirs := dirs + parents;
      if path in dirs {
        return false;
      }
      files := files[path := data];
      ok := true;
    }
  }
}
