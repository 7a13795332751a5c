/** Where a relative path leads, and when a download refuses it, as conditions on its text. */
module Paths {
  import opened Wrappers
  import opened Layout
  import opened S3
  import opened Disk
  import opened Download

  // ---- following segments ----

  lemma {:induction false} WalkAppend(at: Path, a: seq<string>, b: seq<string>)
    requires Names(at) && (forall x :: x in a ==> SlashFree(x)) && (forall x :: x in b ==> SlashFree(x))
    ensures Walk(at, a + b) == Walk(Walk(at, a), b)
    decreases |a|
  {
    if a == [] {
      assert a + b == b;
    } else {
      assert (a + b)[0] == a[0] && (a + b)[1..] == a[1..] + b;
      assert a[0] in a;
      WalkAppend(Walk(at, [a[0]]), a[1..], b);
      WalkOne(at, a[0], (a + b)[1..]);
      WalkOne(at, a[0], a[1..]);
    }
  }

  lemma WalkOne(at: Path, x: string, more: seq<string>)
    requires Names(at) && SlashFree(x) && forall y :: y in more ==> SlashFree(y)
    ensures Walk(at, [x] + more) == Walk(Walk(at, [x]), more)
  {
    assert ([x] + more)[1..] == more && [x][1..] == [];
  }

  /** An empty segment and `.` stay, `..` leaves the last directory and stays at the root, a name enters. */
  lemma OneSegment(at: Path, n: string)
    requires Names(at) && Name(n)
    ensures Walk(at, [""]) == at && Walk(at, ["."]) == at
    ensures Walk([], [".."]) == [] && Walk(at + [n], [".."]) == at
    ensures Walk(at, [n]) == at + [n]
  {
    assert [""][1..] == [] && ["."][1..] == [] && [".."][1..] == [] && [n][1..] == [];
    assert (at + [n])[..|at|] == at;
  }

  /** Wherever it stands in a path, entering a directory and leaving it again changes nothing. */
  lemma LeavingCancelsEntering(at: Path, a: seq<string>, n: string, b: seq<string>)
    requires Names(at) && Name(n)
    requires (forall x :: x in a ==> SlashFree(x)) && (forall x :: x in b ==> SlashFree(x))
    ensures Walk(at, a + [n, ".."] + b) == Walk(at, a + b)
  {
    var here := Walk(at, a);
    WalkAppend(at, a + [n, ".."], b);
    WalkAppend(at, a, [n, ".."]);
    WalkAppend(at, a, b);
    WalkAppend(here, [n], [".."]);
    assert [n] + [".."] == [n, ".."];
    OneSegment(here, n);
  }

  /** Wherever it stands, an empty segment or `.` changes nothing. */
  lemma StayingChangesNothing(at: Path, a: seq<string>, x: string, b: seq<string>)
    requires Names(at) && (x == "" || x == ".")
    requires (forall y :: y in a ==> SlashFree(y)) && (forall y :: y in b ==> SlashFree(y))
    ensures Walk(at, a + [x] + b) == Walk(at, a + b)
  {
    var here := Walk(at, a);
    WalkAppend(at, a + [x], b);
    WalkAppend(at, a, [x]);
    WalkAppend(at, a, b);
    OneSegment(here, "x");
  }

  // ---- what is left of a path once everything that cancels is gone ----

  /** So many directories up, and then down these names. */
  datatype Way = Way(ups: nat, names: Path)

  function Extended(w: Way, x: string): Way {
    if x == "" || x == "." then w
    else if x != ".." then Way(w.ups, w.names + [x])
    else if w.names == [] then Way(w.ups + 1, [])
    else Way(w.ups, w.names[..|w.names| - 1])
  }

  function Reduced(segs: seq<string>): Way {
    if segs == [] then Way(0, []) else Extended(Reduced(segs[..|segs| - 1]), segs[|segs| - 1])
  }

  function Land(at: Path, w: Way): Path {
    (if w.ups <= |at| then at[..|at| - w.ups] else []) + w.names
  }

  lemma ExtendedLands(at: Path, w: Way, x: string)
    requires Names(at) && Names(w.names) && SlashFree(x)
    ensures Names(Extended(w, x).names) && Names(Land(at, w))
    ensures Walk(Land(at, w), [x]) == Land(at, Extended(w, x))
  {
    assert [x][1..] == [];
    var base := if w.ups <= |at| then at[..|at| - w.ups] else [];
    assert Land(at, w) == base + w.names;
    if x == ".." && w.names != [] {
      assert (base + w.names)[..|base + w.names| - 1] == base + w.names[..|w.names| - 1];
    } else if x == ".." {
      assert base + [] == base;
    } else if x != "" && x != "." {
      assert base + w.names + [x] == base + (w.names + [x]);
    }
  }

  lemma {:induction false} WalkReduces(at: Path, segs: seq<string>)
    requires Names(at) && forall x :: x in segs ==> SlashFree(x)
    ensures Names(Reduced(segs).names) && Walk(at, segs) == Land(at, Reduced(segs))
    decreases |segs|
  {
    if segs == [] {
      assert at[..|at|] == at;
    } else {
      var n := |segs| - 1;
      assert segs == segs[..n] + [segs[n]];
      assert segs[n] in segs;
      WalkReduces(at, segs[..n]);
      WalkAppend(at, segs[..n], [segs[n]]);
      ExtendedLands(at, Reduced(segs[..n]), segs[n]);
    }
  }

  /** How many more times the segments leave a directory than they enter one. */
  function Excess(segs: seq<string>): int {
    if segs == [] then 0
    else
      var x := segs[|segs| - 1];
      Excess(segs[..|segs| - 1]) + if x == ".." then 1 else if x == "" || x == "." then 0 else -1
  }

  lemma {:induction false} NoHeadIsFurther(segs: seq<string>)
    ensures forall i :: 0 <= i <= |segs| ==> Excess(segs[..i]) <= Reduced(segs).ups
    ensures |Reduced(segs).names| == Reduced(segs).ups - Excess(segs)
  {
    if segs == [] {
      assert segs[..0] == [];
    } else {
      NoHeadIsFurther(segs[..|segs| - 1]);
      HeadsOfHead(segs);
    }
  }

  lemma {:induction false} Furthest(segs: seq<string>) returns (i: nat)
    ensures i <= |segs| && Excess(segs[..i]) == Reduced(segs).ups
  {
    i := 0;
    if segs != [] {
      NoHeadIsFurther(segs[..|segs| - 1]);
      i := Furthest(segs[..|segs| - 1]);
      HeadsOfHead(segs);
      if Reduced(segs).ups != Reduced(segs[..|segs| - 1]).ups {
        i := |segs|;
      }
    }
  }

  /**
   * A path goes up as often as its furthest head has more `..` than names, and is left with so many
   * names as the balance of the whole then asks for.
   */
  lemma WaysByCounting(segs: seq<string>)
    ensures forall i :: 0 <= i <= |segs| ==> Excess(segs[..i]) <= Reduced(segs).ups
    ensures exists i :: 0 <= i <= |segs| && Excess(segs[..i]) == Reduced(segs).ups
    ensures |Reduced(segs).names| == Reduced(segs).ups - Excess(segs)
  {
    NoHeadIsFurther(segs);
    var i := Furthest(segs);
  }

  lemma HeadsOfHead(segs: seq<string>)
    requires segs != []
    ensures forall i :: 0 <= i < |segs| ==> segs[..|segs| - 1][..i] == segs[..i]
    ensures segs[..|segs|] == segs
  {
  }

  lemma {:induction false} PlainWay(names: Path)
    requires Names(names)
    ensures Reduced(names) == Way(0, names)
  {
    if names != [] {
      var n := |names| - 1;
      assert names == names[..n] + [names[n]] && names[n] in names;
      PlainWay(names[..n]);
    }
  }

  // ---- keys ----

  lemma LocalByWay(root: Path, rel: string)
    requires Names(root) && rel != ""
    ensures var w := Reduced(Split(rel));
            Names(w.names) && LocalFor(root, rel) == if rel[0] == '/' then w.names else Land(root, w)
  {
    var w := Reduced(Split(rel));
    if rel[0] == '/' {
      WalkReduces([], Split(rel));
      assert "/" <= rel;
      assert Land([], w) == [] + w.names == w.names;
    } else {
      WalkReduces(root, Split(rel));
      JoinedWalk(root, rel);
    }
  }

  lemma JoinedWalk(root: Path, rel: string)
    requires Names(root) && rel != "" && rel[0] != '/'
    ensures LocalFor(root, rel) == Walk(root, Split(rel))
  {
    JoinedSegments(root, rel);
    WalkDown(root, Split(rel));
  }

  lemma WalkDown(root: Path, more: seq<string>)
    requires Names(root) && forall x :: x in more ==> SlashFree(x)
    ensures Walk([], [""] + root + more) == Walk(root, more)
  {
    WalkAppend([], [""] + root, more);
    WalkAppend([], [""], root);
    OneSegment([], "x");
    WalkNames([], root, []);
    assert root + [] == root && [] + root == root;
  }

  /**
   * The remainder of a key leads out of the destination: an absolute one does not begin with the
   * destination, or a relative one climbs above it and does not come back down by the same names.
   */
  predicate LeadsOut(root: Path, rel: string)
    requires rel != ""
  {
    var w := Reduced(Split(rel));
    if root == [] then w.names != []
    else if rel[0] == '/' then !(root <= w.names)
    else
      var up := if w.ups <= |root| then w.ups else |root|;
      !(root[|root| - up..] <= w.names)
  }

  lemma BackByTheSameNames(root: Path, up: nat, names: Path)
    requires up <= |root|
    ensures root <= root[..|root| - up] + names <==> root[|root| - up..] <= names
  {
    var n := |root| - up;
    var there := root[..n] + names;
    assert root == root[..n] + root[n..];
    if root[n..] <= names {
      assert names == root[n..] + names[up..];
      assert there == root + names[up..];
    }
    if root <= there {
      assert forall i :: 0 <= i < up ==> root[n..][i] == there[n + i] == names[i];
    }
  }

  lemma LandsInside(root: Path, w: Way)
    requires root != []
    ensures root <= Land(root, w) <==>
            root[|root| - (if w.ups <= |root| then w.ups else |root|)..] <= w.names
  {
    var up := if w.ups <= |root| then w.ups else |root|;
    assert Land(root, w) == root[..|root| - up] + w.names;
    BackByTheSameNames(root, up, w.names);
  }

  /** The escape check refuses exactly the remainders that lead out. */
  lemma RefusedExactlyWhenItLeadsOut(root: Path, rel: string)
    requires Names(root) && rel != ""
    ensures Inside(root, LocalFor(root, rel)) <==> !LeadsOut(root, rel)
  {
    var w := Reduced(Split(rel));
    LocalByWay(root, rel);
    InsideMeansBelow(root, LocalFor(root, rel));
    if root != [] {
      LandsInside(root, w);
    } else {
      assert Land(root, w) == w.names;
    }
  }

  predicate NeverClimbs(segs: seq<string>) { forall i :: 0 <= i <= |segs| ==> Excess(segs[..i]) <= 0 }

  lemma NeverUp(segs: seq<string>)
    ensures NeverClimbs(segs) <==> Reduced(segs).ups == 0
  {
    WaysByCounting(segs);
    if Reduced(segs).ups == 0 {
      assert forall i :: 0 <= i <= |segs| ==> Excess(segs[..i]) <= 0;
    }
  }

  lemma LandBelow(root: Path, w: Way)
    requires w.ups == 0
    ensures Land(root, w) == root + w.names && root[|root| - w.ups..] == []
  {
    assert root[..|root|] == root;
  }

  /** Remainders that never climb above the destination stay inside and land at what is left of them. */
  lemma InsidePathsLandInside(root: Path, rel: string)
    requires Names(root) && rel != "" && rel[0] != '/' && root != [] && NeverClimbs(Split(rel))
    ensures !LeadsOut(root, rel) && LocalFor(root, rel) == root + Reduced(Split(rel)).names
  {
    NeverUp(Split(rel));
    LocalByWay(root, rel);
    LandBelow(root, Reduced(Split(rel)));
  }

  /**
   * When a download refuses, on the text of the keys: it does not succeed if the remainder of some file
   * key leads out, and it refuses a key as escaping only if there is such a key.
   */
  lemma DownloadRefusesWhatLeadsOut(objects: Objects, prefix: string, root: Path, f0: map<Path, Bytes>, d0: set<Path>,
                                    f: map<Path, Bytes>, d: set<Path>, r: Result<seq<Path>, DownloadError>)
    requires Names(root) && Outcome(objects, prefix, root, f0, d0, f, d, r)
    ensures (exists k :: k in Files(objects, prefix) && LeadsOut(root, k[|prefix|..])) ==> r.Err?
    ensures r == Err(Escapes) ==> exists k :: k in Files(objects, prefix) && LeadsOut(root, k[|prefix|..])
  {
    forall k | k in Files(objects, prefix)
      ensures Inside(root, Local(root, prefix, k)) <==> !LeadsOut(root, k[|prefix|..])
    {
      RefusedExactlyWhenItLeadsOut(root, k[|prefix|..]);
    }
  }

  /** `../x` leads out of every destination whose last directory is not `x`. */
  lemma ClimbingOut(root: Path, x: string)
    requires Names(root) && root != [] && Name(x)
    ensures LeadsOut(root, "../" + x) <==> root[|root| - 1] != x
  {
    ClimbingWay(x);
    LastName(root, x);
  }

  /** `a/../x` lands at `x`, wherever it is written. */
  lemma ClimbingBack(root: Path, x: string)
    requires Names(root) && root != [] && Name(x)
    ensures !LeadsOut(root, "a/../" + x) && LocalFor(root, "a/../" + x) == root + [x]
  {
    ClimbingWay(x);
    LocalByWay(root, "a/../" + x);
    LandBelow(root, Way(0, [x]));
  }

  lemma LastName(root: Path, x: string)
    requires root != []
    ensures root[|root| - 1..] <= [x] <==> root[|root| - 1] == x
  {
    assert root[|root| - 1..] == [root[|root| - 1]];
  }

  lemma ClimbingWay(x: string)
    requires Name(x)
    ensures Reduced(Split("../" + x)) == Way(1, [x]) && Reduced(Split("a/../" + x)) == Way(0, [x])
  {
    ClimbingSegments(x);
    ShortWays(x);
  }

  lemma ClimbingSegments(x: string)
    requires Name(x)
    ensures Split("../" + x) == [".."] + [x] && Split("a/../" + x) == ["a"] + ([".."] + [x])
  {
    SplitCut(x, "");
    SameText(x);
    CutAfter("..", x, "../" + x);
    CutAfter("a", "../" + x, "a/../" + x);
  }

  lemma SameText(x: string)
    ensures "../" + x == ".." + ['/'] + x && "a/../" + x == "a" + ['/'] + ("../" + x)
  {
  }

  lemma CutAfter(head: string, rest: string, whole: string)
    requires SlashFree(head) && whole == head + ['/'] + rest
    ensures Split(whole) == [head] + Split(rest)
  {
    SplitCut(head, rest);
  }

  lemma LastOne(segs: seq<string>, x: string)
    ensures Reduced(segs + [x]) == Extended(Reduced(segs), x)
  {
    assert (segs + [x])[..|segs|] == segs;
  }

  lemma ShortWays(x: string)
    requires Name(x)
    ensures Reduced([".."] + [x]) == Way(1, [x]) && Reduced(["a"] + ([".."] + [x])) == Way(0, [x])
  {
    LastOne([], "..");
    LastOne([".."], x);
    LastOne([], "a");
    LastOne(["a"], "..");
    LastOne(["a"] + [".."], x);
    assert ["a"] + [".."] + [x] == ["a"] + ([".."] + [x]);
    assert [] + [".."] == [".."] && [] + ["a"] == ["a"];
    assert ["a"][..0] == [];
  }

  // ---- the destination, and the keys that are no files ----

  /** An absolute destination is taken as it is, a relative one from the working directory. */
  lemma DestinationIs(cwd: Path, dest: string)
    requires Names(cwd)
    ensures RealPath(cwd, dest) == Land(if dest != "" && dest[0] == '/' then [] else cwd, Reduced(Split(dest)))
  {
    WalkReduces(if dest != "" && dest[0] == '/' then [] else cwd, Split(dest));
    assert "/" <= dest <==> dest != "" && dest[0] == '/';
  }

  /** The prefix itself and keys that end in a slash are no files; every other key under the prefix is. */
  lemma FilesInPlainTerms(objects: Objects, prefix: string, k: string)
    ensures k in Files(objects, prefix) <==>
            k in objects && |prefix| < |k| && k[..|prefix|] == prefix && k[|k| - 1] != '/'
  {
  }

  /** A download that succeeds has written a file for every file key below a plain relative path. */
  lemma PlainFilesArrive(objects: Objects, prefix: string, root: Path, f0: map<Path, Bytes>, d0: set<Path>,
                         f: map<Path, Bytes>, d: set<Path>, r: Result<seq<Path>, DownloadError>, rel: string)
    requires Names(root) && Outcome(objects, prefix, root, f0, d0, f, d, r) && r.Ok?
    requires PlainRel(rel) && prefix + rel in objects
    ensures root + Split(rel) in f && root + Split(rel) in r.value
  {
    RelsLandBelow(root, prefix, rel);
    assert prefix + rel in Files(objects, prefix);
  }

  /** With nothing but the prefix itself and directory placeholders there is nothing to write. */
  lemma PlaceholdersWriteNothing(objects: Objects, prefix: string, root: Path, f0: map<Path, Bytes>, d0: set<Path>,
                                 f: map<Path, Bytes>, d: set<Path>, r: Result<seq<Path>, DownloadError>)
    requires Names(root) && Outcome(objects, prefix, root, f0, d0, f, d, r)
    requires forall k :: k in objects && prefix < k ==> k[|k| - 1] == '/'
    ensures r == Ok([]) && f == f0
  {
    assert Files(objects, prefix) == {};
    var done :| Written(objects, prefix, root, done, f0, d0, f, d);
    assert forall p :: p in f ==> Explained(objects, prefix, root, done, f0, p, f[p]);
    if r.Ok? {
      NoMembers(r.value);
    }
  }

  lemma NoMembers(paths: seq<Path>)
    ensures (forall p :: p !in paths) ==> paths == []
  {
    assert paths != [] ==> paths[0] in paths;
  }
}
