/** experiment_store/s3_layout.py: planning and transferring a run's artifacts. */
module Upload {
  import opened Wrappers
  import opened Layout
  import opened S3

  const MAX_ATTEMPTS := 5
  const BASE_DELAY_S := 0.5
  const NON_RETRYABLE: set<string> :=
    {"AccessDenied", "403", "InvalidAccessKeyId", "SignatureDoesNotMatch", "NoSuchBucket"}

  /** The whole-file digests, in the two renderings the program compares and returns. */
  datatype Digest = Digest(hex: Bytes -> string, base64: Bytes -> string)

  datatype LocalFile = LocalFile(rel: string, data: Bytes)

  /** One entry of `artifacts`: a path that does not exist, or the files walking it yields. */
  datatype Artifact = Missing | Present(files: seq<LocalFile>)

  datatype Planned = Planned(key: string, data: Bytes)

  datatype UploadError =
    | FileNotFound
    | KeyCollision
    | Refused(code: string)
    | VerificationFailed
    | AttemptsExhausted

  // ---- one file ----

  datatype Verdict = Verified | Mismatch | Fatal(code: string) | Transient

  function OnCode(code: string): Verdict {
    if code in NON_RETRYABLE then Fatal(code) else Transient
  }

  /** What one attempt settles: a whole-file checksum is compared, otherwise the size is. */
  function Judge(fate: Fate, base64: string, size: nat): Verdict {
    match fate
    case SendRaised(code, _) => OnCode(code)
    case HeadRaised(code) => OnCode(code)
    case HeadAnswered(checksum, length) =>
      if checksum.Some? && '-' !in checksum.value then
        if checksum.value == base64 then Verified else Mismatch
      else if length == size then Verified else Mismatch
  }

  function TwoTo(n: nat): real { if n == 0 then 1.0 else 2.0 * TwoTo(n - 1) }

  /** Seconds slept after `k` transient failures that were each followed by another attempt. */
  function Backoff(k: nat): real { BASE_DELAY_S * (TwoTo(k) - 1.0) }

  lemma {:induction false} BackoffSteps(k: nat)
    ensures Backoff(k + 1) == Backoff(k) + BASE_DELAY_S * TwoTo(k)
    ensures Backoff(k) >= 0.0
    ensures k < MAX_ATTEMPTS ==> Backoff(k) <= 7.5
  {
    if k > 0 {
      BackoffSteps(k - 1);
      TwoToGrows(k - 1);
    }
    assert TwoTo(4) == 2.0 * (2.0 * (2.0 * (2.0 * TwoTo(0))));
  }

  lemma TwoToGrows(k: nat)
    ensures TwoTo(k) >= 1.0
  {
  }

  /** What the n-th attempt at an object settles. */
  function VerdictOf(s3: S3Client, digest: Digest, key: string, data: Bytes, n: nat): Verdict {
    Judge(s3.fate(key, n), digest.base64(data), |data|)
  }

  // ---- the same, in terms of what the calls answered ----

  /** The head call answered with the whole-file checksum, or without a comparable one with the size. */
  predicate Confirms(fate: Fate, base64: string, size: nat) {
    match fate
    case HeadAnswered(None, length) => length == size
    case HeadAnswered(Some(checksum), length) =>
      ('-' !in checksum && checksum == base64) || ('-' in checksum && length == size)
    case _ => false
  }

  predicate Raises(fate: Fate) { fate.SendRaised? || fate.HeadRaised? }

  function CodeOf(fate: Fate): string
    requires Raises(fate)
  {
    match fate
    case SendRaised(code, _) => code
    case HeadRaised(code) => code
  }

  /** One of the two calls raised an error that no other attempt can mend. */
  predicate RaisesForGood(fate: Fate) {
    Raises(fate) &&
    (CodeOf(fate) == "AccessDenied" || CodeOf(fate) == "403" || CodeOf(fate) == "InvalidAccessKeyId" ||
     CodeOf(fate) == "SignatureDoesNotMatch" || CodeOf(fate) == "NoSuchBucket")
  }

  /** One of them raised any other error. */
  predicate RaisesForNow(fate: Fate) { Raises(fate) && !RaisesForGood(fate) }

  lemma WhatAnAttemptSettles(fate: Fate, base64: string, size: nat)
    ensures Judge(fate, base64, size) == Verified <==> Confirms(fate, base64, size)
    ensures Judge(fate, base64, size) == Mismatch <==> fate.HeadAnswered? && !Confirms(fate, base64, size)
    ensures Judge(fate, base64, size) == Transient <==> RaisesForNow(fate)
    ensures forall code :: Judge(fate, base64, size) == Fatal(code) <==> RaisesForGood(fate) && CodeOf(fate) == code
  {
  }

  lemma BackoffInSeconds()
    ensures Backoff(0) == 0.0 && Backoff(1) == 0.5 && Backoff(2) == 1.5 && Backoff(3) == 3.5 && Backoff(4) == 7.5
  {
    assert TwoTo(1) == 2.0 && TwoTo(2) == 4.0;
    assert TwoTo(3) == 2.0 * TwoTo(2) && TwoTo(4) == 2.0 * TwoTo(3);
  }

  /** `upload_verified`; the attempts and the seconds slept are returned to be spoken about. */
  method UploadVerified(s3: S3Client, key: string, data: Bytes, digest: Digest, now: Time)
    returns (r: Result<string, UploadError>, uploads: nat, slept: real)
    modifies s3`objects
    ensures 1 <= uploads <= MAX_ATTEMPTS
    ensures forall n :: 1 <= n < uploads ==> VerdictOf(s3, digest, key, data, n) == Transient
    ensures uploads < MAX_ATTEMPTS ==> VerdictOf(s3, digest, key, data, uploads) != Transient
    ensures r == match VerdictOf(s3, digest, key, data, uploads)
                 case Verified => Ok(digest.hex(data))
                 case Mismatch => Err(VerificationFailed)
                 case Fatal(code) => Err(Refused(code))
                 case Transient => Err(AttemptsExhausted)
    ensures r.Ok? <==> Confirms(s3.fate(key, uploads), digest.base64(data), |data|)
    ensures r.Ok? ==> r.value == digest.hex(data)
    ensures r == Err(VerificationFailed) <==>
            s3.fate(key, uploads).HeadAnswered? && !Confirms(s3.fate(key, uploads), digest.base64(data), |data|)
    ensures forall code :: r == Err(Refused(code)) <==>
              RaisesForGood(s3.fate(key, uploads)) && CodeOf(s3.fate(key, uploads)) == code
    ensures r == Err(AttemptsExhausted) <==> uploads == 5 && RaisesForNow(s3.fate(key, 5))
    ensures forall n :: 1 <= n < uploads ==> RaisesForNow(s3.fate(key, n))
    ensures slept == match uploads case 1 => 0.0 case 2 => 0.5 case 3 => 1.5 case 4 => 3.5 case _ => 7.5
    ensures slept == Backoff(uploads - 1) <= 7.5
    ensures s3.objects == old(s3.objects) || s3.objects == old(s3.objects)[key := Object(data, Some(now))]
    ensures r.Ok? ==> s3.objects == old(s3.objects)[key := Object(data, Some(now))]
  {
    slept := 0.0;
    uploads := 0;
    BackoffInSeconds();
    var attempt := 1;
    while attempt <= MAX_ATTEMPTS
      invariant 1 <= attempt <= MAX_ATTEMPTS + 1 && uploads == attempt - 1
      invariant forall n :: 1 <= n < attempt ==> VerdictOf(s3, digest, key, data, n) == Transient
      invariant forall n :: 1 <= n < attempt ==> RaisesForNow(s3.fate(key, n))
      invariant slept == Backoff(if attempt <= MAX_ATTEMPTS then attempt - 1 else MAX_ATTEMPTS - 1)
      invariant s3.objects == old(s3.objects) || s3.objects == old(s3.objects)[key := Object(data, Some(now))]
    {
      var fate := s3.UploadFile(key, data, now, attempt);
      uploads := attempt;
      BackoffSteps(attempt - 1);
      WhatAnAttemptSettles(fate, digest.base64(data), |data|);
      match Judge(fate, digest.base64(data), |data|) {
        case Verified => return Ok(digest.hex(data)), uploads, slept;
        case Mismatch => return Err(VerificationFailed), uploads, slept;
        case Fatal(code) => return Err(Refused(code)), uploads, slept;
        case Transient =>
          if attempt < MAX_ATTEMPTS {
            slept := slept + BASE_DELAY_S * TwoTo(attempt - 1);
          }
      }
      attempt := attempt + 1;
    }
    BackoffSteps(MAX_ATTEMPTS - 1);
    r := Err(AttemptsExhausted);
  }

  // ---- the plan ----

  /** The files of all artifacts, in walking order. */
  function AllFiles(artifacts: seq<Artifact>): seq<LocalFile> {
    if artifacts == [] then []
    else
      var n := |artifacts| - 1;
      AllFiles(artifacts[..n]) + if artifacts[n].Present? then artifacts[n].files else []
  }

  function PlanFor(prefix: string, files: seq<LocalFile>): seq<Planned> {
    seq(|files|, i requires 0 <= i < |files| => Planned(prefix + files[i].rel, files[i].data))
  }

  predicate DistinctRels(files: seq<LocalFile>) {
    forall i, j :: 0 <= i < j < |files| ==> files[i].rel != files[j].rel
  }

  predicate Plannable(artifacts: seq<Artifact>) {
    (forall a :: a in artifacts ==> a.Present?) && DistinctRels(AllFiles(artifacts))
  }

  function Plan(alias: string, runId: string, artifacts: seq<Artifact>): seq<Planned> {
    PlanFor(RunPrefix(alias, runId), AllFiles(artifacts))
  }

  function Keys(plan: seq<Planned>): (keys: seq<string>)
    ensures |keys| == |plan|
  {
    seq(|plan|, i requires 0 <= i < |plan| => plan[i].key)
  }

  predicate DistinctKeys(plan: seq<Planned>) {
    forall i, j :: 0 <= i < j < |plan| ==> plan[i].key != plan[j].key
  }

  /** A plan is injective exactly when the relative paths are, and never leaves the run's prefix. */
  lemma PlanStaysInside(prefix: string, files: seq<LocalFile>)
    ensures forall x :: x in PlanFor(prefix, files) ==> prefix <= x.key
    ensures DistinctKeys(PlanFor(prefix, files)) <==> DistinctRels(files)
  {
    var plan := PlanFor(prefix, files);
    assert forall i :: 0 <= i < |files| ==> plan[i].key[|prefix|..] == files[i].rel;
    assert forall i, j :: 0 <= i < j < |files| && files[i].rel == files[j].rel ==> plan[i].key == plan[j].key;
  }

  /** The first artifact that cannot be planned: it is missing, or brings a key planned before. */
  ghost predicate FailsAt(artifacts: seq<Artifact>, a: nat, error: UploadError) {
    a < |artifacts| && Plannable(artifacts[..a]) &&
    match artifacts[a]
    case Missing => error == FileNotFound
    case Present(files) => error == KeyCollision && !DistinctRels(AllFiles(artifacts[..a]) + files)
  }

  /** The planning loops of `upload_artifacts`: no transfer happens here. */
  method BuildPlan(prefix: string, artifacts: seq<Artifact>) returns (r: Result<seq<Planned>, UploadError>)
    ensures r.Ok? <==> Plannable(artifacts)
    ensures r.Ok? ==> r.value == PlanFor(prefix, AllFiles(artifacts))
    ensures r.Err? ==> exists a :: FailsAt(artifacts, a, r.error)
  {
    var planned: seq<Planned> := [];
    var seen: set<string> := {};
    for a := 0 to |artifacts|
      invariant forall x :: x in artifacts[..a] ==> x.Present?
      invariant planned == PlanFor(prefix, AllFiles(artifacts[..a]))
      invariant DistinctRels(AllFiles(artifacts[..a]))
      invariant seen == set x | x in planned :: x.key
    {
      if artifacts[a].Missing? {
        assert artifacts[a] in artifacts;
        assert FailsAt(artifacts, a, FileNotFound);
        return Err(FileNotFound);
      }
      ghost var before := AllFiles(artifacts[..a]);
      var files := artifacts[a].files;
      assert artifacts[..a + 1][..a] == artifacts[..a];
      assert AllFiles(artifacts[..a + 1]) == before + files;
      for f := 0 to |files|
        invariant planned == PlanFor(prefix, before + files[..f])
        invariant DistinctRels(before + files[..f])
        invariant seen == set x | x in planned :: x.key
      {
        var key := prefix + files[f].rel;
        assert before + files[..f + 1] == before + files[..f] + [files[f]];
        if key in seen {
          SeenMeansCollision(prefix, before + files[..f], files[f], key);
          CollisionAt(artifacts, a, f);
          return Err(KeyCollision);
        }
        FreshKeepsDistinct(prefix, before + files[..f], files[f]);
        seen := seen + {key};
        planned := planned + [Planned(key, files[f].data)];
      }
      assert files[..|files|] == files;
    }
    assert artifacts[..|artifacts|] == artifacts;
    r := Ok(planned);
  }

  lemma SeenMeansCollision(prefix: string, done: seq<LocalFile>, f: LocalFile, key: string)
    requires key == prefix + f.rel && exists x :: x in PlanFor(prefix, done) && x.key == key
    ensures !DistinctRels(done + [f])
  {
    var x :| x in PlanFor(prefix, done) && x.key == key;
    var i :| 0 <= i < |done| && x == PlanFor(prefix, done)[i];
    assert x.key[|prefix|..] == done[i].rel && key[|prefix|..] == f.rel;
    assert (done + [f])[i].rel == (done + [f])[|done|].rel;
  }

  lemma CollisionAt(artifacts: seq<Artifact>, a: nat, f: nat)
    requires a < |artifacts| && artifacts[a].Present? && f < |artifacts[a].files| && Plannable(artifacts[..a])
    requires !DistinctRels(AllFiles(artifacts[..a]) + artifacts[a].files[..f] + [artifacts[a].files[f]])
    ensures FailsAt(artifacts, a, KeyCollision) && !Plannable(artifacts)
  {
    var before, files := AllFiles(artifacts[..a]), artifacts[a].files;
    var head := before + files[..f] + [files[f]];
    PrefixOfFiles(artifacts, a, f);
    assert head <= before + files;
    var i, j :| 0 <= i < j < |head| && head[i].rel == head[j].rel;
    assert (before + files)[i].rel == (before + files)[j].rel;
    assert AllFiles(artifacts)[i].rel == AllFiles(artifacts)[j].rel;
  }

  lemma FreshKeepsDistinct(prefix: string, done: seq<LocalFile>, f: LocalFile)
    requires DistinctRels(done) && forall x :: x in PlanFor(prefix, done) ==> x.key != prefix + f.rel
    ensures DistinctRels(done + [f])
    ensures PlanFor(prefix, done + [f]) == PlanFor(prefix, done) + [Planned(prefix + f.rel, f.data)]
  {
    var plan := PlanFor(prefix, done);
    assert forall i :: 0 <= i < |done| ==> plan[i] in plan && plan[i].key == prefix + done[i].rel;
  }

  /** What was walked so far is a head of the whole walk, so its collision is a collision of the whole. */
  lemma PrefixOfFiles(artifacts: seq<Artifact>, a: nat, f: nat)
    requires a < |artifacts| && artifacts[a].Present? && f < |artifacts[a].files|
    ensures AllFiles(artifacts[..a]) + artifacts[a].files[..f] + [artifacts[a].files[f]] <= AllFiles(artifacts)
    decreases |artifacts|
  {
    var n := |artifacts| - 1;
    if a < n {
      PrefixOfFiles(artifacts[..n], a, f);
      assert artifacts[..n][..a] == artifacts[..a];
    } else {
      assert artifacts[..n] == artifacts[..a];
    }
  }

  // ---- the whole transfer ----

  /** `after` is `before` with the first `n` planned objects stored over it. */
  ghost predicate Stored(before: Objects, after: Objects, plan: seq<Planned>, n: nat)
    requires n <= |plan|
  {
    (forall i :: 0 <= i < n ==> plan[i].key in after && after[plan[i].key].data == plan[i].data) &&
    (forall k :: k !in Keys(plan[..n]) ==> (k in after <==> k in before)) &&
    (forall k :: k !in Keys(plan[..n]) && k in before ==> after[k] == before[k])
  }

  /** `after` differs from `before` in planned keys at most. */
  ghost predicate OnlyPlanned(before: Objects, after: Objects, plan: seq<Planned>) {
    forall k :: k !in Keys(plan) ==> (k in after <==> k in before) && (k in before ==> after[k] == before[k])
  }

  /** Some attempt verifies, and every one before it failed only transiently. */
  predicate Lands(s3: S3Client, digest: Digest, x: Planned) {
    exists n :: 1 <= n <= 5 && Confirms(s3.fate(x.key, n), digest.base64(x.data), |x.data|) &&
                forall m :: 1 <= m < n ==> RaisesForNow(s3.fate(x.key, m))
  }

  /** The attempt that settles the upload of `x` settles it with this error. */
  predicate FailsWith(s3: S3Client, digest: Digest, x: Planned, error: UploadError) {
    exists n :: 1 <= n <= 5 && (forall m :: 1 <= m < n ==> RaisesForNow(s3.fate(x.key, m))) &&
                FailsAfter(s3.fate(x.key, n), digest.base64(x.data), |x.data|, n, error)
  }

  predicate FailsAfter(fate: Fate, base64: string, size: nat, n: nat, error: UploadError) {
    match error
    case VerificationFailed => fate.HeadAnswered? && !Confirms(fate, base64, size)
    case Refused(code) => RaisesForGood(fate) && CodeOf(fate) == code
    case AttemptsExhausted => n == 5 && RaisesForNow(fate)
    case _ => false
  }

  /** The transfer stored the first `i` objects, failed at the next one, and touched none behind it. */
  ghost predicate StoppedAt(s3: S3Client, digest: Digest, before: Objects, after: Objects,
                            plan: seq<Planned>, i: nat, error: UploadError)
  {
    i < |plan| && (forall j :: 0 <= j < i ==> Lands(s3, digest, plan[j])) && FailsWith(s3, digest, plan[i], error) &&
    (forall j :: 0 <= j < i ==> plan[j].key in after && after[plan[j].key].data == plan[j].data) &&
    OnlyPlanned(before, after, plan[..i + 1])
  }

  lemma StopsThere(s3: S3Client, digest: Digest, first: Objects, before: Objects, plan: seq<Planned>, i: nat,
                   mtime: Option<Time>, error: UploadError)
    requires i < |plan| && DistinctKeys(plan) && Stored(first, before, plan, i)
    requires (forall x :: x in plan[..i] ==> Lands(s3, digest, x)) && FailsWith(s3, digest, plan[i], error)
    ensures StoppedAt(s3, digest, first, before, plan, i, error)
    ensures StoppedAt(s3, digest, first, before[plan[i].key := Object(plan[i].data, mtime)], plan, i, error)
  {
    KeysGrow(plan, i);
    assert forall j :: 0 <= j < i ==> plan[j] in plan[..i];
    assert plan[i].key in Keys(plan[..i + 1]);
    assert forall k :: k in Keys(plan[..i]) ==> k in Keys(plan[..i + 1]);
  }

  /** The attempt that settles an upload decides whether the object lands. */
  lemma SettledBy(s3: S3Client, digest: Digest, x: Planned, uploads: nat)
    requires 1 <= uploads <= MAX_ATTEMPTS
    requires forall n :: 1 <= n < uploads ==> RaisesForNow(s3.fate(x.key, n))
    requires uploads < MAX_ATTEMPTS ==> !RaisesForNow(s3.fate(x.key, uploads))
    ensures Lands(s3, digest, x) <==> Confirms(s3.fate(x.key, uploads), digest.base64(x.data), |x.data|)
  {
  }

  /** `upload_artifacts`: everything is planned before anything is sent. */
  method UploadArtifacts(s3: S3Client, alias: string, runId: string, artifacts: seq<Artifact>,
                         digest: Digest, now: Time)
    returns (r: Result<seq<string>, UploadError>)
    modifies s3`objects
    ensures r.Ok? <==> Plannable(artifacts) && forall x :: x in Plan(alias, runId, artifacts) ==> Lands(s3, digest, x)
    ensures !Plannable(artifacts) ==>
              r.Err? && s3.objects == old(s3.objects) && exists a :: FailsAt(artifacts, a, r.error)
    ensures r.Err? ==> OnlyPlanned(old(s3.objects), s3.objects, Plan(alias, runId, artifacts))
    ensures r.Err? && Plannable(artifacts) ==>
              exists i ::
                StoppedAt(s3, digest, old(s3.objects), s3.objects, Plan(alias, runId, artifacts), i, r.error)
    ensures r.Ok? ==> var plan := Plan(alias, runId, artifacts);
                      DistinctKeys(plan) && r.value == Keys(plan) &&
                      Stored(old(s3.objects), s3.objects, plan, |plan|)
  {
    var prefix := RunPrefix(alias, runId);
    var built := BuildPlan(prefix, artifacts);
    if built.Err? {
      return Err(built.error);
    }
    var planned := built.value;
    PlanStaysInside(prefix, AllFiles(artifacts));
    var objects: seq<string> := [];
    for i := 0 to |planned|
      invariant objects == Keys(planned[..i])
      invariant Stored(old(s3.objects), s3.objects, planned, i)
      invariant forall x :: x in planned[..i] ==> Lands(s3, digest, x)
    {
      ghost var before := s3.objects;
      var sent, uploads, _ := UploadVerified(s3, planned[i].key, planned[i].data, digest, now);
      SettledBy(s3, digest, planned[i], uploads);
      KeysGrow(planned, i);
      OneMoreStored(old(s3.objects), before, planned, i, Some(now));
      if sent.Err? {
        StopsThere(s3, digest, old(s3.objects), before, planned, i, Some(now), sent.error);
        return Err(sent.error);
      }
      objects := objects + [planned[i].key];
    }
    assert planned[..|planned|] == planned;
    r := Ok(objects);
  }

  lemma OneMoreStored(first: Objects, before: Objects, plan: seq<Planned>, i: nat, mtime: Option<Time>)
    requires i < |plan| && Stored(first, before, plan, i)
    ensures var after := before[plan[i].key := Object(plan[i].data, mtime)];
            OnlyPlanned(first, before, plan) && OnlyPlanned(first, after, plan) &&
            (DistinctKeys(plan) ==> Stored(first, after, plan, i + 1))
  {
    KeysGrow(plan, i);
    assert forall k :: k in Keys(plan[..i]) ==> k in Keys(plan[..i + 1]);
  }

  lemma KeysGrow(plan: seq<Planned>, i: nat)
    requires i < |plan|
    ensures Keys(plan[..i + 1]) == Keys(plan[..i]) + [plan[i].key]
    ensures forall k :: k in Keys(plan[..i + 1]) ==> k in Keys(plan)
  {
    var keys := Keys(plan);
    assert Keys(plan[..i + 1]) == keys[..i + 1];
  }

  // ---- what is planned ----

  /** Every file of every present artifact is planned under its own relative path, and nothing else is. */
  lemma EveryFileIsPlanned(alias: string, runId: string, artifacts: seq<Artifact>)
    ensures forall x :: x in Plan(alias, runId, artifacts) <==>
              exists a, f :: a in artifacts && a.Present? && f in a.files &&
                             x == Planned(alias + "/" + runId + "/" + f.rel, f.data)
  {
    var files := AllFiles(artifacts);
    var plan := Plan(alias, runId, artifacts);
    FilesOfAll(artifacts);
    forall x | x in plan
      ensures exists a, f :: a in artifacts && a.Present? && f in a.files &&
                             x == Planned(alias + "/" + runId + "/" + f.rel, f.data)
    {
      var i :| 0 <= i < |plan| && plan[i] == x;
      assert files[i] in files;
    }
    forall a, f | a in artifacts && a.Present? && f in a.files
      ensures Planned(alias + "/" + runId + "/" + f.rel, f.data) in plan
    {
      assert f in files;
      var i :| 0 <= i < |files| && files[i] == f;
      assert plan[i] == Planned(alias + "/" + runId + "/" + f.rel, f.data);
    }
  }

  lemma {:induction false} FilesOfAll(artifacts: seq<Artifact>)
    ensures forall f :: f in AllFiles(artifacts) <==> exists a :: a in artifacts && a.Present? && f in a.files
  {
    if artifacts != [] {
      var n := |artifacts| - 1;
      FilesOfAll(artifacts[..n]);
      assert artifacts == artifacts[..n] + [artifacts[n]];
    }
  }

  /** Files are planned in order: artifact by artifact, and within one in walking order. */
  lemma PlannedInOrder(alias: string, runId: string, artifacts: seq<Artifact>, a: nat, f: nat)
    requires a < |artifacts| && artifacts[a].Present? && f < |artifacts[a].files|
    ensures var at := |AllFiles(artifacts[..a])| + f;
            at < |Plan(alias, runId, artifacts)| &&
            Plan(alias, runId, artifacts)[at] ==
            Planned(alias + "/" + runId + "/" + artifacts[a].files[f].rel, artifacts[a].files[f].data)
  {
    var before := AllFiles(artifacts[..a]);
    var head := before + artifacts[a].files[..f] + [artifacts[a].files[f]];
    PrefixOfFiles(artifacts, a, f);
    assert head[|before| + f] == artifacts[a].files[f];
  }
}
