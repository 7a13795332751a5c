/** experiment_store/s3_layout.py: `download_prefix`, and its round trip with `upload_artifacts`. */
module Download {
  import opened Wrappers
  import opened Layout
  import opened S3
  import opened Disk
  import Prefixes
  import Upload

  datatype DownloadError = BadUri(error: UriError) | Escapes | NotWritable

  /** A key that is neither the prefix itself nor a directory placeholder. */
  predicate IsFile(prefix: string, key: string) {
    prefix < key && key[|key| - 1] != '/'
  }

  function Files(objects: Objects, prefix: string): set<string> {
    set k | k in objects && IsFile(prefix, k)
  }

  function Local(root: Path, prefix: string, key: string): (p: Path)
    requires Names(root) && IsFile(prefix, key)
    ensures Names(p)
  {
    LocalFor(root, key[|prefix|..])
  }

  /** A file is an old one, or what a key among `done` holds. */
  ghost predicate Explained(objects: Objects, prefix: string, root: Path, done: set<string>,
                            f0: map<Path, Bytes>, p: Path, data: Bytes)
    requires Names(root) && done <= Files(objects, prefix)
  {
    (p in f0 && data == f0[p]) ||
    (exists k :: k in done && Local(root, prefix, k) == p && data == objects[k].data)
  }

  /** A directory that some file below the destination needs. */
  ghost predicate Parent(objects: Objects, prefix: string, root: Path, p: Path)
    requires Names(root)
  {
    exists k :: k in Files(objects, prefix) && Inside(root, Local(root, prefix, k)) && p < Local(root, prefix, k)
  }

  /** What downloading the keys `done` has made of the files and directories `f0` and `d0`. */
  ghost predicate Written(objects: Objects, prefix: string, root: Path, done: set<string>,
                          f0: map<Path, Bytes>, d0: set<Path>, f: map<Path, Bytes>, d: set<Path>)
    requires Names(root)
  {
    done <= Files(objects, prefix) &&
    (forall k :: k in done ==> Local(root, prefix, k) in f && Inside(root, Local(root, prefix, k))) &&
    (forall p :: p in f ==> Explained(objects, prefix, root, done, f0, p, f[p])) &&
    (forall p :: p in f0 ==> p in f) && d0 <= d &&
    (forall p :: p in d ==> p in d0 || Parent(objects, prefix, root, p))
  }

  /** A target some other target, an old file or an old directory stands in the way of. */
  ghost predicate Obstructed(objects: Objects, prefix: string, root: Path,
                             f0: map<Path, Bytes>, d0: set<Path>, key: string)
    requires Names(root) && key in Files(objects, prefix)
  {
    var p := Local(root, prefix, key);
    p in d0 ||
    (exists q :: q in f0 && q < p) ||
    (exists k :: k in Files(objects, prefix) &&
                 (p < Local(root, prefix, k) || Local(root, prefix, k) < p))
  }

  lemma OneMoreFile(objects: Objects, prefix: string, root: Path, done: set<string>,
                    f0: map<Path, Bytes>, d0: set<Path>, f: map<Path, Bytes>, d: set<Path>, key: string)
    requires Names(root) && key in Files(objects, prefix) && Inside(root, Local(root, prefix, key))
    requires Written(objects, prefix, root, done, f0, d0, f, d)
    ensures var p := Local(root, prefix, key);
            Written(objects, prefix, root, done + {key}, f0, d0,
                    f[p := objects[key].data], d + ProperPrefixes(p))
  {
    var p := Local(root, prefix, key);
    OneMoreExplained(objects, prefix, root, done, f0, f, key);
    ParentsOfOne(objects, prefix, root, key);
    assert forall k :: k in done + {key} ==> k in done || k == key;
  }

  lemma ParentsOfOne(objects: Objects, prefix: string, root: Path, key: string)
    requires Names(root) && key in Files(objects, prefix) && Inside(root, Local(root, prefix, key))
    ensures forall q :: q in ProperPrefixes(Local(root, prefix, key)) ==> Parent(objects, prefix, root, q)
  {
    assert forall q :: q in ProperPrefixes(Local(root, prefix, key)) ==> q < Local(root, prefix, key);
  }

  lemma OneMoreExplained(objects: Objects, prefix: string, root: Path, done: set<string>,
                         f0: map<Path, Bytes>, f: map<Path, Bytes>, key: string)
    requires Names(root) && done <= Files(objects, prefix) && key in Files(objects, prefix)
    requires forall q :: q in f ==> Explained(objects, prefix, root, done, f0, q, f[q])
    ensures var f' := f[Local(root, prefix, key) := objects[key].data];
            forall q :: q in f' ==> Explained(objects, prefix, root, done + {key}, f0, q, f'[q])
  {
  }

  lemma RefusalHasACause(objects: Objects, prefix: string, root: Path, done: set<string>,
                         f0: map<Path, Bytes>, d0: set<Path>, f: map<Path, Bytes>, d: set<Path>, key: string)
    requires Names(root) && key in Files(objects, prefix)
    requires Written(objects, prefix, root, done, f0, d0, f, d)
    requires Local(root, prefix, key) in d || !(ProperPrefixes(Local(root, prefix, key)) !! f.Keys)
    ensures Obstructed(objects, prefix, root, f0, d0, key)
  {
    var p := Local(root, prefix, key);
    if p in d {
      if p !in d0 {
        assert Parent(objects, prefix, root, p);
        StandsAbove(objects, prefix, root, f0, d0, key);
      }
    } else {
      var q :| q in ProperPrefixes(p) && q in f;
      assert q < p && Explained(objects, prefix, root, done, f0, q, f[q]);
      StandsBelow(objects, prefix, root, done, f0, d0, key, q, f[q]);
    }
  }

  lemma StandsAbove(objects: Objects, prefix: string, root: Path, f0: map<Path, Bytes>, d0: set<Path>, key: string)
    requires Names(root) && key in Files(objects, prefix) && Parent(objects, prefix, root, Local(root, prefix, key))
    ensures Obstructed(objects, prefix, root, f0, d0, key)
  {
  }

  lemma StandsBelow(objects: Objects, prefix: string, root: Path, done: set<string>, f0: map<Path, Bytes>,
                    d0: set<Path>, key: string, q: Path, data: Bytes)
    requires Names(root) && key in Files(objects, prefix) && done <= Files(objects, prefix)
    requires q < Local(root, prefix, key) && Explained(objects, prefix, root, done, f0, q, data)
    ensures Obstructed(objects, prefix, root, f0, d0, key)
  {
    if q !in f0 {
      var k :| k in done && Local(root, prefix, k) == q && data == objects[k].data;
      assert k in Files(objects, prefix);
    }
  }

  /** What a download that got as far as its listing reports, and the disk it leaves. */
  ghost predicate Outcome(objects: Objects, prefix: string, root: Path, f0: map<Path, Bytes>, d0: set<Path>,
                          f: map<Path, Bytes>, d: set<Path>, r: Result<seq<Path>, DownloadError>)
    requires Names(root)
  {
    var files := Files(objects, prefix);
    Consistent(f, d) &&
    (exists done :: Written(objects, prefix, root, done, f0, d0, f, d)) &&
    match r
    case Ok(paths) =>
      Written(objects, prefix, root, files, f0, d0, f, d) &&
      forall p :: p in paths <==> exists k :: k in files && p == Local(root, prefix, k)
    case Err(Escapes) => exists k :: k in files && !Inside(root, Local(root, prefix, k))
    case Err(NotWritable) => exists k :: k in files && Obstructed(objects, prefix, root, f0, d0, k)
    case Err(BadUri(_)) => false
  }

  /** `download_prefix` */
  method DownloadPrefix(s3: S3Client, uri: string, cwd: Path, dest: string, disk: LocalDisk)
    returns (r: Result<seq<Path>, DownloadError>)
    requires Names(cwd) && disk.Valid()
    modifies disk
    ensures disk.Valid()
    ensures var target := Prefixes.Target(s3.bucket, uri);
            if target.Err? then
              r == Err(BadUri(target.error)) && disk.files == old(disk.files) && disk.dirs == old(disk.dirs)
            else
              Outcome(s3.objects, target.value, RealPath(cwd, dest),
                      old(disk.files), old(disk.dirs), disk.files, disk.dirs, r)
  {
    var target := Prefixes.Target(s3.bucket, uri);
    if target.Err? {
      return Err(BadUri(target.error));
    }
    var root := RealPath(cwd, dest);
    r := DownloadKeys(s3, target.value, root, disk);
  }

  /** The loop of `download_prefix` over the listed keys. */
  method DownloadKeys(s3: S3Client, prefix: string, root: Path, disk: LocalDisk)
    returns (r: Result<seq<Path>, DownloadError>)
    requires Names(root) && disk.Valid()
    modifies disk
    ensures disk.Valid()
    ensures Outcome(s3.objects, prefix, root, old(disk.files), old(disk.dirs), disk.files, disk.dirs, r)
  {
    var keys := Prefixes.ListKeys(s3, prefix);
    var written: seq<Path> := [];
    ghost var done: set<string> := {};
    ghost var f0, d0 := disk.files, disk.dirs;
    for i := 0 to |keys|
      invariant disk.Valid()
      invariant done == set k | k in keys[..i] && IsFile(prefix, k)
      invariant Written(s3.objects, prefix, root, done, f0, d0, disk.files, disk.dirs)
      invariant forall p :: p in written <==> exists k :: k in done && p == Local(root, prefix, k)
    {
      var key := keys[i];
      assert keys[..i + 1] == keys[..i] + [key];
      assert key in Under(s3.objects, prefix);
      if key == prefix || key[|key| - 1] == '/' {
        assert !IsFile(prefix, key);
        continue;
      }
      assert key in Files(s3.objects, prefix);
      var error := DownloadOne(s3, prefix, root, disk, key, done, f0, d0);
      if error.Some? {
        return Err(error.value);
      }
      done := done + {key};
      written := written + [Local(root, prefix, key)];
    }
    assert keys[..|keys|] == keys;
    assert done == Files(s3.objects, prefix);
    r := Ok(written);
  }

  /** The body of that loop for one file. */
  method DownloadOne(s3: S3Client, prefix: string, root: Path, disk: LocalDisk, key: string,
                     ghost done: set<string>, ghost f0: map<Path, Bytes>, ghost d0: set<Path>)
    returns (error: Option<DownloadError>)
    requires Names(root) && disk.Valid() && key in Files(s3.objects, prefix)
    requires Written(s3.objects, prefix, root, done, f0, d0, disk.files, disk.dirs)
    modifies disk
    ensures disk.Valid()
    ensures match error
            case None =>
              Written(s3.objects, prefix, root, done + {key}, f0, d0, disk.files, disk.dirs) &&
              disk.files == old(disk.files)[Local(root, prefix, key) := s3.objects[key].data]
            case Some(e) =>
              Written(s3.objects, prefix, root, done, f0, d0, disk.files, disk.dirs) &&
              ((e == Escapes && !Inside(root, Local(root, prefix, key))) ||
               (e == NotWritable && Obstructed(s3.objects, prefix, root, f0, d0, key)))
  {
    var local := Local(root, prefix, key);
    if !Inside(root, local) {
      return Some(Escapes);
    }
    ghost var f, d := disk.files, disk.dirs;
    var ok := disk.WriteFile(local, s3.objects[key].data);
    if !ok {
      RefusalHasACause(s3.objects, prefix, root, done, f0, d0, f, d, key);
      return Some(NotWritable);
    }
    OneMoreFile(s3.objects, prefix, root, done, f0, d0, f, d, key);
    error := None;
  }

  /**
   * A download succeeds exactly when every file key lands inside the destination and nothing stands in
   * the way of any: no directory at its path, no file above it, no other key's file above or below it.
   */
  lemma DownloadSucceedsExactlyWhen(objects: Objects, prefix: string, root: Path, f0: map<Path, Bytes>, d0: set<Path>,
                                    f: map<Path, Bytes>, d: set<Path>, r: Result<seq<Path>, DownloadError>)
    requires Names(root) && Outcome(objects, prefix, root, f0, d0, f, d, r)
    ensures r.Ok? <==> forall k :: k in Files(objects, prefix) ==>
                         Inside(root, Local(root, prefix, k)) && !Obstructed(objects, prefix, root, f0, d0, k)
  {
    if r.Ok? {
      forall k | k in Files(objects, prefix)
        ensures Inside(root, Local(root, prefix, k)) && !Obstructed(objects, prefix, root, f0, d0, k)
      {
        NothingStoodInTheWay(objects, prefix, root, f0, d0, f, d, k);
      }
    }
  }

  lemma NothingStoodInTheWay(objects: Objects, prefix: string, root: Path, f0: map<Path, Bytes>, d0: set<Path>,
                             f: map<Path, Bytes>, d: set<Path>, key: string)
    requires Names(root) && Consistent(f, d) && key in Files(objects, prefix)
    requires Written(objects, prefix, root, Files(objects, prefix), f0, d0, f, d)
    ensures !Obstructed(objects, prefix, root, f0, d0, key)
  {
    var p := Local(root, prefix, key);
    assert p in f && p !in d;
    forall q | q in f
      ensures !(q < p) && !(p < q)
    {
      NoFileAbove(f, d, q, p);
      NoFileAbove(f, d, p, q);
    }
  }

  lemma NoFileAbove(f: map<Path, Bytes>, d: set<Path>, q: Path, p: Path)
    requires Consistent(f, d) && p in f && q in f
    ensures !(q < p)
  {
    HeadIsTake(q, p);
    assert forall n :: 0 <= n < |p| ==> p[..n] in d;
  }

  // ---- containment and the round trip ----

  /**
   * Whatever the keys, a download only ever changes files at or below its destination, and makes no
   * directory but at, below or above it.
   */
  lemma NothingWrittenOutside(objects: Objects, prefix: string, root: Path, f0: map<Path, Bytes>, d0: set<Path>,
                              f: map<Path, Bytes>, d: set<Path>, r: Result<seq<Path>, DownloadError>)
    requires Names(root) && Outcome(objects, prefix, root, f0, d0, f, d, r)
    ensures forall p :: p in f && !(p in f0 && f[p] == f0[p]) ==> root <= p
    ensures forall p :: p in f0 ==> p in f
    ensures forall p :: p in d && p !in d0 ==> p <= root || root <= p
  {
    var done :| Written(objects, prefix, root, done, f0, d0, f, d);
    forall p | p in d && p !in d0
      ensures p <= root || root <= p
    {
      assert Parent(objects, prefix, root, p);
      var k :| k in Files(objects, prefix) && Inside(root, Local(root, prefix, k)) && p < Local(root, prefix, k);
      InsideMeansBelow(root, Local(root, prefix, k));
      OnOnePath(p, root, Local(root, prefix, k));
    }
    forall p | p in f && !(p in f0 && f[p] == f0[p])
      ensures root <= p
    {
      assert Explained(objects, prefix, root, done, f0, p, f[p]);
      var k :| k in done && Local(root, prefix, k) == p;
      InsideMeansBelow(root, p);
    }
  }

  lemma OnOnePath(p: Path, root: Path, q: Path)
    requires p <= q && root <= q
    ensures p <= root || root <= p
  {
  }

  /** A download into `/` succeeds exactly when there is no file to write, and otherwise writes none. */
  lemma DownloadToTheRootFails(objects: Objects, prefix: string, f0: map<Path, Bytes>, d0: set<Path>,
                               f: map<Path, Bytes>, d: set<Path>, r: Result<seq<Path>, DownloadError>)
    requires Outcome(objects, prefix, [], f0, d0, f, d, r)
    ensures r.Ok? <==> Files(objects, prefix) == {}
    ensures f == f0
  {
    var done :| Written(objects, prefix, [], done, f0, d0, f, d);
    NoneIsDone(objects, prefix, done, f0, d0, f, d);
    NothingWritten(objects, prefix, f0, d0, f, d);
    if r.Ok? {
      NoneIsDone(objects, prefix, Files(objects, prefix), f0, d0, f, d);
    }
  }

  lemma NothingWritten(objects: Objects, prefix: string, f0: map<Path, Bytes>, d0: set<Path>,
                       f: map<Path, Bytes>, d: set<Path>)
    requires Written(objects, prefix, [], {}, f0, d0, f, d)
    ensures f == f0
  {
    assert forall p :: p in f ==> Explained(objects, prefix, [], {}, f0, p, f[p]);
  }

  lemma NoneIsDone(objects: Objects, prefix: string, done: set<string>, f0: map<Path, Bytes>, d0: set<Path>,
                   f: map<Path, Bytes>, d: set<Path>)
    requires Written(objects, prefix, [], done, f0, d0, f, d) && Consistent(f, d)
    ensures done == {}
  {
    if done != {} {
      var k :| k in done;
      InsideMeansBelow([], Local([], prefix, k));
      assert false;
    }
  }

  /** A destination with nothing in it and no file above it. */
  ghost predicate Fresh(root: Path, f0: map<Path, Bytes>, d0: set<Path>) {
    root != [] &&
    (forall p :: p in f0 ==> !(p <= root) && !(root <= p)) &&
    (forall p :: p in d0 ==> !(root < p))
  }

  /** No file of the list would have to be a directory for another one. */
  predicate AncestorFree(files: seq<Upload.LocalFile>) {
    forall i, j :: 0 <= i < |files| && 0 <= j < |files| ==> !(Split(files[i].rel) < Split(files[j].rel))
  }

  ghost predicate UploadedInto(objects: Objects, prefix: string, files: seq<Upload.LocalFile>) {
    exists before :: Under(before, prefix) == {} &&
                     Upload.Stored(before, objects, Upload.PlanFor(prefix, files), |files|)
  }

  lemma UploadedKeys(objects: Objects, prefix: string, files: seq<Upload.LocalFile>, root: Path)
    requires Names(root) && Upload.DistinctRels(files)
    requires forall x :: x in files ==> PlainRel(x.rel)
    requires UploadedInto(objects, prefix, files)
    ensures forall x :: x in files ==>
              var key := prefix + x.rel;
              key in Files(objects, prefix) && objects[key].data == x.data &&
              Local(root, prefix, key) == root + Split(x.rel)
    ensures forall k :: k in Files(objects, prefix) ==> exists x :: x in files && k == prefix + x.rel
  {
    var plan := Upload.PlanFor(prefix, files);
    var before :| Under(before, prefix) == {} && Upload.Stored(before, objects, plan, |plan|);
    assert plan[..|plan|] == plan;
    forall x | x in files
      ensures var key := prefix + x.rel;
              key in Files(objects, prefix) && objects[key].data == x.data &&
              Local(root, prefix, key) == root + Split(x.rel)
    {
      var i :| 0 <= i < |files| && files[i] == x;
      assert plan[i].key == prefix + x.rel;
      RelsLandBelow(root, prefix, x.rel);
    }
    forall k | k in Files(objects, prefix)
      ensures exists x :: x in files && k == prefix + x.rel
    {
      assert k !in Under(before, prefix);
      var i :| 0 <= i < |plan| && Upload.Keys(plan)[i] == k;
      assert files[i] in files;
    }
  }

  lemma RelsLandBelow(root: Path, prefix: string, rel: string)
    requires Names(root) && PlainRel(rel)
    ensures IsFile(prefix, prefix + rel) && Local(root, prefix, prefix + rel) == root + Split(rel)
  {
    PlainRelShape(rel);
    assert (prefix + rel)[|prefix|..] == rel;
    PlainRelLandsBelow(root, rel);
  }

  lemma BelowTheSameRoot(root: Path, a: Path, b: Path)
    ensures root + a < root + b <==> a < b
    ensures root + a == root + b ==> a == b
  {
    assert a == (root + a)[|root|..] && b == (root + b)[|root|..];
    if a < b {
      assert root + b == root + a + b[|a|..];
    }
  }

  lemma NothingObstructs(objects: Objects, prefix: string, files: seq<Upload.LocalFile>, root: Path,
                         f0: map<Path, Bytes>, d0: set<Path>, key: string)
    requires Names(root) && Upload.DistinctRels(files) && AncestorFree(files)
    requires forall x :: x in files ==> PlainRel(x.rel)
    requires UploadedInto(objects, prefix, files) && Fresh(root, f0, d0)
    requires key in Files(objects, prefix)
    ensures !Obstructed(objects, prefix, root, f0, d0, key)
    ensures Inside(root, Local(root, prefix, key))
  {
    TargetsOfUpload(objects, prefix, files, root);
    var x :| x in files && Local(root, prefix, key) == root + Split(x.rel);
    FreshPathIsFree(root, f0, d0, Split(x.rel));
    InsideMeansBelow(root, root + Split(x.rel));
    forall k | k in Files(objects, prefix)
      ensures !(root + Split(x.rel) < Local(root, prefix, k)) && !(Local(root, prefix, k) < root + Split(x.rel))
    {
      var y :| y in files && Local(root, prefix, k) == root + Split(y.rel);
      NeitherIsAbove(files, root, x, y);
    }
  }

  lemma TargetsOfUpload(objects: Objects, prefix: string, files: seq<Upload.LocalFile>, root: Path)
    requires Names(root) && Upload.DistinctRels(files)
    requires forall x :: x in files ==> PlainRel(x.rel)
    requires UploadedInto(objects, prefix, files)
    ensures forall k :: k in Files(objects, prefix) ==>
              exists x :: x in files && Local(root, prefix, k) == root + Split(x.rel)
  {
    UploadedKeys(objects, prefix, files, root);
  }

  lemma NeitherIsAbove(files: seq<Upload.LocalFile>, root: Path, x: Upload.LocalFile, y: Upload.LocalFile)
    requires AncestorFree(files) && x in files && y in files
    ensures !(root + Split(x.rel) < root + Split(y.rel)) && !(root + Split(y.rel) < root + Split(x.rel))
  {
    BelowTheSameRoot(root, Split(x.rel), Split(y.rel));
    BelowTheSameRoot(root, Split(y.rel), Split(x.rel));
  }

  lemma FreshPathIsFree(root: Path, f0: map<Path, Bytes>, d0: set<Path>, rel: Path)
    requires Fresh(root, f0, d0) && rel != []
    ensures root < root + rel && root + rel !in d0
    ensures forall q :: q in f0 ==> !(q < root + rel)
  {
  }

  /**
   * Downloading into a fresh directory what was uploaded gives back the relative paths and their
   * bytes and nothing else, and it succeeds exactly when no uploaded file is another one's ancestor.
   */
  lemma DownloadUndoesUpload(objects: Objects, prefix: string, files: seq<Upload.LocalFile>, root: Path,
                             f0: map<Path, Bytes>, d0: set<Path>, f: map<Path, Bytes>, d: set<Path>,
                             r: Result<seq<Path>, DownloadError>)
    requires Names(root) && Upload.DistinctRels(files)
    requires forall x :: x in files ==> PlainRel(x.rel)
    requires UploadedInto(objects, prefix, files) && Fresh(root, f0, d0)
    requires Outcome(objects, prefix, root, f0, d0, f, d, r)
    ensures r.Ok? <==> AncestorFree(files)
    ensures r.Ok? ==> forall x :: x in files ==> root + Split(x.rel) in f && f[root + Split(x.rel)] == x.data
    ensures r.Ok? ==> forall p :: p in f && root <= p ==> exists x :: x in files && p == root + Split(x.rel)
  {
    UploadedKeys(objects, prefix, files, root);
    if AncestorFree(files) {
      forall k | k in Files(objects, prefix)
        ensures !Obstructed(objects, prefix, root, f0, d0, k) && Inside(root, Local(root, prefix, k))
      {
        NothingObstructs(objects, prefix, files, root, f0, d0, k);
      }
    }
    if r.Ok? {
      GivesBack(objects, prefix, files, root, f0, d0, f, d);
    }
  }

  /** A file and another one below its path: two keys that S3 holds side by side. */
  const NESTED: seq<Upload.LocalFile> := [Upload.LocalFile("x", []), Upload.LocalFile("x/y", [])]

  function NestedBucket(prefix: string): Objects {
    map[prefix + "x" := Object([], None), prefix + "x/y" := Object([], None)]
  }

  /** They can be planned and uploaded, and then no download into a fresh directory succeeds. */
  lemma NestedUploadNeverComesBack(prefix: string, root: Path, f0: map<Path, Bytes>, d0: set<Path>,
                                   f: map<Path, Bytes>, d: set<Path>, r: Result<seq<Path>, DownloadError>)
    requires Names(root) && Fresh(root, f0, d0)
    requires Outcome(NestedBucket(prefix), prefix, root, f0, d0, f, d, r)
    ensures Upload.Plannable([Upload.Present(NESTED)])
    ensures UploadedInto(NestedBucket(prefix), prefix, NESTED)
    ensures r.Err?
  {
    NestedIsPlannable();
    NestedIsUploaded(prefix);
    NestedSegments();
    DownloadUndoesUpload(NestedBucket(prefix), prefix, NESTED, root, f0, d0, f, d, r);
  }

  lemma NestedIsPlannable()
    ensures Upload.Plannable([Upload.Present(NESTED)]) && Upload.DistinctRels(NESTED)
  {
    NestedIsDistinct();
    FilesOfOne(NESTED);
    assert forall a :: a in [Upload.Present(NESTED)] ==> a == Upload.Present(NESTED);
  }

  lemma NestedIsDistinct()
    ensures Upload.DistinctRels(NESTED)
  {
    assert |NESTED[0].rel| == 1 && |NESTED[1].rel| == 3;
  }

  lemma FilesOfOne(files: seq<Upload.LocalFile>)
    ensures Upload.AllFiles([Upload.Present(files)]) == files
  {
    var one := [Upload.Present(files)];
    assert one[..0] == [];
    assert Upload.AllFiles(one) == Upload.AllFiles([]) + files;
  }

  lemma NestedIsUploaded(prefix: string)
    ensures UploadedInto(NestedBucket(prefix), prefix, NESTED)
  {
    var plan := Upload.PlanFor(prefix, NESTED);
    assert plan[..2] == plan;
    assert Upload.Keys(plan) == [prefix + "x", prefix + "x/y"];
    assert Under(map[], prefix) == {};
    assert Upload.Stored(map[], NestedBucket(prefix), plan, 2);
  }

  lemma NestedSegments()
    ensures (forall x :: x in NESTED ==> PlainRel(x.rel)) && !AncestorFree(NESTED)
  {
    SplitCut("x", "y");
    SplitCut("y", "");
    assert "x" + ['/'] + "y" == "x/y";
    assert Split("x/y") == ["x"] + ["y"];
    assert Split(NESTED[0].rel) < Split(NESTED[1].rel);
  }

  lemma GivesBack(objects: Objects, prefix: string, files: seq<Upload.LocalFile>, root: Path,
                  f0: map<Path, Bytes>, d0: set<Path>, f: map<Path, Bytes>, d: set<Path>)
    requires Names(root) && Upload.DistinctRels(files) && Consistent(f, d)
    requires forall x :: x in files ==> PlainRel(x.rel)
    requires UploadedInto(objects, prefix, files) && Fresh(root, f0, d0)
    requires Written(objects, prefix, root, Files(objects, prefix), f0, d0, f, d)
    ensures AncestorFree(files)
    ensures forall x :: x in files ==> root + Split(x.rel) in f && f[root + Split(x.rel)] == x.data
    ensures forall p :: p in f && root <= p ==> exists x :: x in files && p == root + Split(x.rel)
  {
    UploadedKeys(objects, prefix, files, root);
    forall x | x in files
      ensures root + Split(x.rel) in f && f[root + Split(x.rel)] == x.data
    {
      FileHoldsItsBytes(objects, prefix, files, root, f0, d0, f, d, x);
    }
    forall i, j | 0 <= i < |files| && 0 <= j < |files|
      ensures !(Split(files[i].rel) < Split(files[j].rel))
    {
      NoFileInsideAFile(root, f, d, files[i], files[j]);
    }
    forall p | p in f && root <= p
      ensures exists x :: x in files && p == root + Split(x.rel)
    {
      var k :| k in Files(objects, prefix) && Local(root, prefix, k) == p;
      var x :| x in files && k == prefix + x.rel;
    }
  }

  lemma HeadIsTake(p: Path, q: Path)
    ensures p <= q ==> p == q[..|p|]
  {
  }

  lemma NoFileInsideAFile(root: Path, f: map<Path, Bytes>, d: set<Path>, x: Upload.LocalFile, y: Upload.LocalFile)
    requires Names(root) && Consistent(f, d)
    requires root + Split(x.rel) in f && root + Split(y.rel) in f
    ensures !(Split(x.rel) < Split(y.rel))
  {
    BelowTheSameRoot(root, Split(x.rel), Split(y.rel));
    NoFileAbove(f, d, root + Split(x.rel), root + Split(y.rel));
  }

  lemma FileHoldsItsBytes(objects: Objects, prefix: string, files: seq<Upload.LocalFile>, root: Path,
                          f0: map<Path, Bytes>, d0: set<Path>, f: map<Path, Bytes>, d: set<Path>,
                          x: Upload.LocalFile)
    requires Names(root) && Upload.DistinctRels(files) && Fresh(root, f0, d0)
    requires forall y :: y in files ==> PlainRel(y.rel)
    requires UploadedInto(objects, prefix, files)
    requires Written(objects, prefix, root, Files(objects, prefix), f0, d0, f, d)
    requires x in files
    ensures root + Split(x.rel) in f && f[root + Split(x.rel)] == x.data
  {
    UploadedKeys(objects, prefix, files, root);
    var p := root + Split(x.rel);
    assert p == Local(root, prefix, prefix + x.rel);
    var k :| k in Files(objects, prefix) && Local(root, prefix, k) == p && f[p] == objects[k].data;
    var y :| y in files && k == prefix + y.rel;
    BelowTheSameRoot(root, Split(x.rel), Split(y.rel));
    SplitIsInjective(x.rel, y.rel);
  }
}
