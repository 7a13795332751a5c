/** experiment_store/store.py: `log`, `hold` and `purge` as one caller performs them. */
module Store {
  import opened Wrappers
  import opened Layout
  import opened Ids
  import opened Tracking
  import opened S3
  import opened Upload
  import opened Prefixes
  import opened Janitor

  /** The index, as far as it is written: a call that raises has no effect. */
  class Index {
    var runs: map<string, RunInfo>
    /** How many calls have raised. */
    var failures: nat

    constructor ()
      ensures runs == map[] && failures == 0
    {
      runs, failures := map[], 0;
    }

    /** `create_run`; `issued` is the fresh id the server answers with. */
    method CreateRun(identity: Identity, issued: string) returns (ok: bool)
      modifies this
      ensures runs == if ok then old(runs)[issued := RunInfo(RUNNING, false, None, CreationContent(identity))]
                      else old(runs)
      ensures failures == old(failures) + if ok then 0 else 1
    {
      ok := *;
      if ok {
        runs := runs[issued := RunInfo(RUNNING, false, None, CreationContent(identity))];
      } else {
        failures := failures + 1;
      }
    }

    /** `set_tag`, `log_param` and `log_metric` */
    method Write(run: string, key: ContentKey, value: string) returns (ok: bool)
      modifies this
      ensures ok ==> run in old(runs) &&
                     runs == old(runs)[run := old(runs)[run].(logged := old(runs)[run].logged[key := value])]
      ensures !ok ==> runs == old(runs)
      ensures failures == old(failures) + if ok then 0 else 1
    {
      ok := *;
      ok := ok && run in runs && !runs[run].deleted;
      if ok {
        runs := runs[run := runs[run].(logged := runs[run].logged[key := value])];
      } else {
        failures := failures + 1;
      }
    }

    /** `set_terminated` */
    method SetTerminated(run: string, status: Status) returns (ok: bool)
      modifies this
      ensures ok ==> run in old(runs) && runs == old(runs)[run := old(runs)[run].(status := status)]
      ensures !ok ==> runs == old(runs)
      ensures failures == old(failures) + if ok then 0 else 1
    {
      ok := *;
      ok := ok && run in runs && !runs[run].deleted;
      if ok {
        runs := runs[run := runs[run].(status := status)];
      } else {
        failures := failures + 1;
      }
    }

    /** `delete_run` of the client: the error code it raises with, if it raises. */
    method Delete(run: string) returns (raised: Option<string>)
      modifies this
      ensures raised.None? ==> run in old(runs) && runs == old(runs)[run := old(runs)[run].(deleted := true)]
      ensures raised.Some? ==> runs == old(runs)
      ensures run !in old(runs) || old(runs)[run].deleted <==>
              raised == Some("RESOURCE_DOES_NOT_EXIST") || raised == Some("RESOURCE_NOT_FOUND") ||
              raised == Some("NOT_FOUND")
      ensures failures == old(failures) + if raised.None? then 0 else 1
    {
      var fails: bool := *;
      if run !in runs || runs[run].deleted {
        var other: bool := *;
        failures := failures + 1;
        return Some(if fails then "RESOURCE_DOES_NOT_EXIST" else if other then "RESOURCE_NOT_FOUND" else "NOT_FOUND");
      }
      if fails {
        failures := failures + 1;
        return Some("INTERNAL_ERROR");
      }
      runs := runs[run := runs[run].(deleted := true)];
      raised := None;
    }
  }

  const ALREADY_GONE: set<string> := {"RESOURCE_DOES_NOT_EXIST", "RESOURCE_NOT_FOUND", "NOT_FOUND"}

  datatype LogError =
    | Rejected
    | NotCreated
    | UploadFailed(error: UploadError, cleaned: bool)
    | FinalizeFailed(cleaned: bool)

  datatype StoreError = NoUri | Malformed(error: UriError) | NotPurged(prefix: PrefixError) | NotDeleted(code: string)

  /** The namespace is stamped on a run unless the caller's tags name one. */
  function Injected(namespace: string, content: Content): Content {
    if namespace != "" && Tag(NAMESPACE_TAG) !in content then content[Tag(NAMESPACE_TAG) := namespace] else content
  }

  const RESERVED_NAMES: set<string> :=
    {"exp.alias", "chip", "region", "workload_id", "artifacts_uri", "schema_version"}

  /** The caller's content goes in as it is, with the namespace where the caller names none. */
  lemma InjectionIsHarmless(namespace: string, content: Content)
    ensures var all := Injected(namespace, content);
            (forall k :: k in content ==> k in all && all[k] == content[k]) &&
            (namespace != "" && Tag("namespace") !in content ==>
               Tag("namespace") in all && all[Tag("namespace")] == namespace) &&
            (forall k :: k in all && k !in content ==> k == Tag("namespace")) &&
            (ValidContent(all) <==> forall n :: n in RESERVED_NAMES ==> Tag(n) !in content)
  {
    assert !IsReserved("namespace");
    assert forall n :: IsReserved(n) <==> n in RESERVED_NAMES;
  }

  /** The two carry the same identity tags. */
  predicate SameIdentity(a: RunInfo, b: RunInfo) {
    a.TagValue(ALIAS_TAG) == b.TagValue(ALIAS_TAG) && a.TagValue(CHIP_TAG) == b.TagValue(CHIP_TAG) &&
    a.TagValue(REGION_TAG) == b.TagValue(REGION_TAG) && a.TagValue(WORKLOAD_TAG) == b.TagValue(WORKLOAD_TAG) &&
    a.TagValue(SCHEMA_VERSION_TAG) == b.TagValue(SCHEMA_VERSION_TAG)
  }

  lemma OpenTagsKeepIdentity(info: RunInfo, key: ContentKey, value: string)
    requires key.Tag? ==> !IsReserved(key.name) || key.name == ARTIFACTS_URI_TAG
    ensures SameIdentity(info, info.(logged := info.logged[key := value]))
  {
  }

  /** All of `content`, and the artifacts URI when it has one. */
  predicate Logged(info: RunInfo, content: Content) {
    forall k :: k in content ==> k in info.logged && info.logged[k] == content[k]
  }

  class ExperimentStore {
    const s3: S3Client
    const index: Index
    const namespace: string

    constructor (s3: S3Client, index: Index, namespace: string)
      ensures this.s3 == s3 && this.index == index && this.namespace == namespace
    {
      this.s3, this.index, this.namespace := s3, index, namespace;
    }

    /** `finalize_run`: content first, then the URI, and FINISHED last. */
    method FinalizeRun(run: string, uri: string, content: Content) returns (ok: bool)
      requires run in index.runs && index.runs[run].status == RUNNING && ValidContent(content) && uri != ""
      modifies index
      ensures run in index.runs && forall q :: q != run ==> (q in index.runs <==> q in old(index.runs))
      ensures forall q :: q != run && q in index.runs ==> index.runs[q] == old(index.runs)[q]
      ensures index.runs[run].deleted == old(index.runs)[run].deleted
      ensures index.runs[run].status == if ok then FINISHED else RUNNING
      ensures SameIdentity(old(index.runs)[run], index.runs[run])
      ensures ok ==> Logged(index.runs[run], content) && index.runs[run].ArtifactsUri() == Some(uri)
      ensures index.failures == old(index.failures) + if ok then 0 else 1
    {
      var left := content.Keys;
      while left != {}
        invariant left <= content.Keys && run in index.runs && index.runs[run].status == RUNNING
        invariant index.failures == old(index.failures)
        invariant index.runs[run].deleted == old(index.runs)[run].deleted
        invariant SameIdentity(old(index.runs)[run], index.runs[run])
        invariant forall q :: q != run ==> (q in index.runs <==> q in old(index.runs))
        invariant forall q :: q != run && q in index.runs ==> index.runs[q] == old(index.runs)[q]
        invariant forall k :: k in content && k !in left ==>
                    k in index.runs[run].logged && index.runs[run].logged[k] == content[k]
        decreases left
      {
        var k :| k in left;
        assert k.Tag? ==> !IsReserved(k.name);
        ghost var was := index.runs[run];
        var wrote := index.Write(run, k, content[k]);
        if !wrote {
          return false;
        }
        OpenTagsKeepIdentity(was, k, content[k]);
        left := left - {k};
      }
      ghost var named := index.runs[run];
      var tagged := index.Write(run, Tag(ARTIFACTS_URI_TAG), uri);
      if !tagged {
        return false;
      }
      OpenTagsKeepIdentity(named, Tag(ARTIFACTS_URI_TAG), uri);
      assert Tag(ARTIFACTS_URI_TAG) !in content;
      ok := index.SetTerminated(run, FINISHED);
    }

    /**
     * The cleanup of `log`, both halves best-effort; `before` is the bucket `log` found. Through the URI
     * of an alias with the final newline it deletes nothing, and does not notice.
     */
    method CleanUp(alias: string, run: string, ghost before: Objects) returns (cleaned: bool)
      requires LegalBucket(s3.bucket) && MatchesSafeId(alias) && RunId(run)
      requires run in index.runs && index.runs[run].status == RUNNING
      requires SameOutside(before, s3.objects, RunPrefix(alias, run)) && NewTo(before, run)
      modifies s3`objects, s3`failures, index
      ensures SameOutside(before, s3.objects, RunPrefix(alias, run))
      ensures cleaned <==> s3.failures == old(s3.failures)
      ensures cleaned && SafeName(alias) ==> s3.objects == before
      ensures !SafeName(alias) ==> s3.objects == old(s3.objects)
      ensures run in index.runs &&
              index.runs[run].status == if index.failures == old(index.failures) then FAILED else RUNNING
      ensures old(index.failures) <= index.failures <= old(index.failures) + 1
      ensures SameIdentity(old(index.runs)[run], index.runs[run])
      ensures forall q :: q != run ==> (q in index.runs <==> q in old(index.runs))
      ensures forall q :: q != run && q in index.runs ==> index.runs[q] == old(index.runs)[q]
    {
      NothingThereYet(before, s3.objects, alias, run);
      cleaned := EmptyPrefix(alias, run);
      if SafeName(alias) {
        CleanedIsAsBefore(before, s3.objects, RunPrefix(alias, run));
      }
      var _ := index.SetTerminated(run, FAILED);
    }

    method EmptyPrefix(alias: string, run: string) returns (cleaned: bool)
      requires LegalBucket(s3.bucket) && MatchesSafeId(alias) && RunId(run)
      requires !SafeName(alias) ==> Under(s3.objects, RunPrefix(BeforeFinalNewline(alias), run)) == {}
      modifies s3`objects, s3`failures
      ensures cleaned <==> s3.failures == old(s3.failures)
      ensures SafeName(alias) ==> SameOutside(old(s3.objects), s3.objects, RunPrefix(alias, run))
      ensures SafeName(alias) && cleaned ==> Under(s3.objects, RunPrefix(alias, run)) == {}
      ensures !SafeName(alias) ==> s3.objects == old(s3.objects)
    {
      CleanupTarget(s3.bucket, alias, run);
      var deleted := DeletePrefix(s3, ArtifactsUri(s3.bucket, alias, run));
      cleaned := deleted.Ok?;
    }

    /** The transfer of `log`. */
    method Transfer(alias: string, run: string, artifacts: seq<Artifact>, digest: Digest, now: Time)
      returns (error: Option<UploadError>)
      modifies s3`objects
      ensures SameOutside(old(s3.objects), s3.objects, RunPrefix(alias, run))
      ensures error.None? <==> CanShip(s3, alias, run, artifacts, digest)
      ensures error.Some? ==> CannotShip(s3, alias, run, artifacts, digest, error.value)
      ensures error.None? ==> Shipped(old(s3.objects), s3.objects, Plan(alias, run, artifacts))
    {
      var up := UploadArtifacts(s3, alias, run, artifacts, digest, now);
      UploadStaysInside(old(s3.objects), s3.objects, alias, run, artifacts, up.Ok?);
      error := if up.Ok? then None else Some(up.error);
    }

    /** What `log` does once its run is created; `before` is the bucket it found. */
    method LogCreated(alias: string, run: string, content: Content, artifacts: seq<Artifact>, digest: Digest, now: Time)
      returns (error: Option<LogError>)
      requires LegalBucket(s3.bucket) && MatchesSafeId(alias) && RunId(run) && ValidContent(content)
      requires run in index.runs && index.runs[run].status == RUNNING && !index.runs[run].deleted
      requires NewTo(s3.objects, run)
      modifies s3`objects, s3`failures, index
      ensures error.None? <==> CanShip(s3, alias, run, artifacts, digest) && index.failures == old(index.failures)
      ensures error.Some? && error.value.UploadFailed? <==> !CanShip(s3, alias, run, artifacts, digest)
      ensures error.Some? && error.value.UploadFailed? ==>
                CannotShip(s3, alias, run, artifacts, digest, error.value.error)
      ensures error.Some? ==> Recorded(error.value, index.runs, run, index.failures - old(index.failures))
      ensures error.Some? && (error.value.UploadFailed? || error.value.FinalizeFailed?) ==>
                (error.value.cleaned <==> s3.failures == old(s3.failures))
      ensures run in index.runs && SameIdentity(old(index.runs)[run], index.runs[run])
      ensures match error
              case None =>
                index.runs[run].Usable() && Logged(index.runs[run], content) &&
                index.runs[run].ArtifactsUri() == Some(ArtifactsUri(s3.bucket, alias, run)) &&
                Shipped(old(s3.objects), s3.objects, Plan(alias, run, artifacts))
              case Some(e) =>
                (e.UploadFailed? || e.FinalizeFailed?) && index.runs[run].status != FINISHED &&
                (e.cleaned && SafeName(alias) ==> s3.objects == old(s3.objects)) &&
                (e.FinalizeFailed? && !SafeName(alias) ==>
                   Shipped(old(s3.objects), s3.objects, Plan(alias, run, artifacts)))
      ensures SameOutside(old(s3.objects), s3.objects, RunPrefix(alias, run))
      ensures forall q :: q != run ==> (q in index.runs <==> q in old(index.runs))
      ensures forall q :: q != run && q in index.runs ==> index.runs[q] == old(index.runs)[q]
    {
      ghost var before := s3.objects;
      var failed := Transfer(alias, run, artifacts, digest, now);
      if failed.Some? {
        var cleaned := CleanUp(alias, run, before);
        return Some(UploadFailed(failed.value, cleaned));
      }
      var finalized := FinalizeRun(run, ArtifactsUri(s3.bucket, alias, run), content);
      if !finalized {
        var cleaned := CleanUp(alias, run, before);
        return Some(FinalizeFailed(cleaned));
      }
      error := None;
    }

    /** `log` */
    method Log(identity: Identity, content0: Content, artifacts: seq<Artifact>, digest: Digest, now: Time,
               issued: string)
      returns (r: Result<string, LogError>)
      requires LegalBucket(s3.bucket)
      requires RunId(issued) && issued !in index.runs
      requires NewTo(s3.objects, issued)
      modifies s3`objects, s3`failures, index
      ensures var content := Injected(namespace, content0);
              var plan := Plan(identity.alias, issued, artifacts);
              match r
              case Ok(run) =>
                run == issued && run in index.runs && index.runs[run].Usable() &&
                Logged(index.runs[run], content) &&
                index.runs[run].ArtifactsUri() == Some(ArtifactsUri(s3.bucket, identity.alias, run)) &&
                Shipped(old(s3.objects), s3.objects, plan)
              case Err(Rejected) => s3.objects == old(s3.objects) && index.runs == old(index.runs)
              case Err(NotCreated) => s3.objects == old(s3.objects) && index.runs == old(index.runs)
              case Err(UploadFailed(_, cleaned)) =>
                issued in index.runs && index.runs[issued].status != FINISHED &&
                (cleaned && SafeName(identity.alias) ==> s3.objects == old(s3.objects))
              case Err(FinalizeFailed(cleaned)) =>
                issued in index.runs && index.runs[issued].status != FINISHED &&
                (cleaned && SafeName(identity.alias) ==> s3.objects == old(s3.objects)) &&
                (!SafeName(identity.alias) ==> Shipped(old(s3.objects), s3.objects, plan))
      ensures r == Err(Rejected) <==>
              ValidateIdentity(identity).Err? || exists n :: n in RESERVED_NAMES && Tag(n) in content0
      ensures r.Ok? <==> r != Err(Rejected) && index.failures == old(index.failures) &&
                         CanShip(s3, identity.alias, issued, artifacts, digest)
      ensures r == Err(NotCreated) ==> index.failures == old(index.failures) + 1 && issued !in index.runs
      ensures r.Err? && r.error.UploadFailed? ==>
                !CanShip(s3, identity.alias, issued, artifacts, digest) &&
                CannotShip(s3, identity.alias, issued, artifacts, digest, r.error.error)
      ensures r.Err? && r.error.FinalizeFailed? ==> CanShip(s3, identity.alias, issued, artifacts, digest)
      ensures r.Err? && (r.error.UploadFailed? || r.error.FinalizeFailed?) ==>
                Recorded(r.error, index.runs, issued, index.failures - old(index.failures)) &&
                (r.error.cleaned <==> s3.failures == old(s3.failures))
      ensures r.Ok? ==>
                (forall k :: k in content0 ==>
                   k in index.runs[issued].logged && index.runs[issued].logged[k] == content0[k]) &&
                (namespace != "" && Tag("namespace") !in content0 ==>
                   index.runs[issued].TagValue("namespace") == Some(namespace))
      ensures r.Ok? || r.error.UploadFailed? || r.error.FinalizeFailed? ==>
                issued in index.runs &&
                var info := index.runs[issued];
                info.TagValue("chip") == Some(identity.chip) && info.TagValue("region") == Some(identity.region) &&
                info.TagValue("workload_id") == Some(identity.workload) &&
                info.TagValue("exp.alias") == Some(identity.alias) && info.TagValue("schema_version") == Some("1")
      ensures SameOutside(old(s3.objects), s3.objects, RunPrefix(identity.alias, issued))
      ensures forall q :: q in old(index.runs) ==> q in index.runs && index.runs[q] == old(index.runs)[q]
    {
      var content := Injected(namespace, content0);
      InjectionIsHarmless(namespace, content0);
      CreationFacts(identity);
      if ValidateIdentity(identity).Err? || !ValidContent(content) {
        return Err(Rejected);
      }
      var created := index.CreateRun(identity, issued);
      if !created {
        return Err(NotCreated);
      }
      var error := LogCreated(identity.alias, issued, content, artifacts, digest, now);
      r := if error.Some? then Err(error.value) else Ok(issued);
    }

    /** `hold` */
    method Hold(run: RunRef, now: Time) returns (r: Result<string, StoreError>)
      modifies s3`objects
      ensures match run.info.ArtifactsUri()
              case None => r == Err(NoUri) && s3.objects == old(s3.objects)
              case Some(uri) =>
                match MarkerKey(uri)
                case Err(e) => r == Err(Malformed(e)) && s3.objects == old(s3.objects)
                case Ok(m) =>
                  if m.bucket != s3.bucket then r == Err(Malformed(OtherBucket)) && s3.objects == old(s3.objects)
                  else r == Ok(m.key) && s3.objects == old(s3.objects)[m.key := Object([], Some(now))]
      ensures run.info.TagValue("artifacts_uri") in {None, Some("")} <==> r == Err(NoUri)
    {
      var uri := run.info.ArtifactsUri();
      if uri.None? {
        return Err(NoUri);
      }
      var written := WriteRetentionMarker(s3, uri.value, now);
      r := if written.Ok? then Ok(written.value) else Err(Malformed(written.error));
    }

    /** `purge`: the objects go first, and the run is marked deleted only once they are gone. */
    method Purge(run: RunRef, deleteRun: bool) returns (r: Result<nat, StoreError>)
      modifies s3`objects, s3`failures, index
      ensures var uri := run.info.ArtifactsUri();
              r.Err? && r.error.NotPurged? <==>
                uri.Some? && (Reach(s3.bucket, uri.value) == "" || s3.failures != old(s3.failures))
      ensures r.Err? && r.error.NotDeleted? <==>
                !(r.Err? && r.error.NotPurged?) && deleteRun && index.failures != old(index.failures) &&
                run.runId in old(index.runs) && !old(index.runs)[run.runId].deleted
      ensures index.runs == old(index.runs) ||
              (run.runId in old(index.runs) && deleteRun &&
               index.runs == old(index.runs)[run.runId := old(index.runs)[run.runId].(deleted := true)])
      ensures match run.info.ArtifactsUri()
              case None => s3.objects == old(s3.objects) && !(r.Err? && r.error.NotPurged?) && (r.Ok? ==> r.value == 0)
              case Some(uri) =>
                var target := Reach(s3.bucket, uri);
                OnlyLost(old(s3.objects), s3.objects, HitKeys(old(s3.objects), [target])) &&
                ((r.Err? && r.error.NotPurged?) || (target != "" && Under(s3.objects, target) == {})) &&
                (r.Ok? ==> r.value == |Under(old(s3.objects), target)|)
      ensures run.info.TagValue("artifacts_uri") in {None, Some("")} ==> s3.objects == old(s3.objects)
      ensures r.Ok? && deleteRun ==> run.runId !in index.runs || index.runs[run.runId].deleted
      ensures r.Err? && r.error.NotDeleted? ==> run.runId in index.runs && !index.runs[run.runId].deleted
      ensures (r.Err? && r.error.NotPurged?) || !deleteRun ==> index.runs == old(index.runs)
    {
      var deleted := 0;
      if run.info.ArtifactsUri().Some? {
        var purged := DeleteByUri(s3, run.info.ArtifactsUri().value);
        if purged.Err? {
          return Err(NotPurged(purged.error));
        }
        deleted := purged.value;
      }
      if deleteRun {
        var raised := index.Delete(run.runId);
        if raised.Some? && raised.value !in ALREADY_GONE {
          return Err(NotDeleted(raised.value));
        }
      }
      r := Ok(deleted);
    }
  }

  /** Everything can be planned, and every planned object has an attempt that is confirmed. */
  ghost predicate CanShip(s3: S3Client, alias: string, run: string, artifacts: seq<Artifact>, digest: Digest) {
    Plannable(artifacts) && forall x :: x in Plan(alias, run, artifacts) ==> Lands(s3, digest, x)
  }

  /** The first artifact that cannot be planned, or an object whose upload is settled otherwise, is the cause. */
  ghost predicate CannotShip(s3: S3Client, alias: string, run: string, artifacts: seq<Artifact>, digest: Digest,
                             error: UploadError)
  {
    (!Plannable(artifacts) && exists a :: FailsAt(artifacts, a, error)) ||
    (Plannable(artifacts) && exists x :: x in Plan(alias, run, artifacts) && FailsWith(s3, digest, x, error))
  }

  /** The failed run is recorded as FAILED unless that call raised as well, which then was the last to raise. */
  ghost predicate Recorded(error: LogError, runs: map<string, RunInfo>, run: string, raised: int) {
    var before := if error.FinalizeFailed? then 1 else 0;
    run in runs && before <= raised <= before + 1 &&
    runs[run].status == if raised == before then FAILED else RUNNING
  }

  /** `after` and `before` agree outside the prefix. */
  ghost predicate SameOutside(before: Objects, after: Objects, prefix: string) {
    forall k :: !(prefix <= k) ==> (k in after <==> k in before) && (k in after ==> after[k] == before[k])
  }

  /** Every planned object is stored, under a key of its own. */
  ghost predicate Shipped(before: Objects, after: Objects, plan: seq<Planned>) {
    DistinctKeys(plan) && Stored(before, after, plan, |plan|)
  }

  lemma UploadStaysInside(before: Objects, after: Objects, alias: string, run: string,
                          artifacts: seq<Artifact>, ok: bool)
    requires var plan := Plan(alias, run, artifacts);
             if ok then Stored(before, after, plan, |plan|) else OnlyPlanned(before, after, plan)
    ensures SameOutside(before, after, RunPrefix(alias, run))
  {
  }

  /** No key has carried the run's id. */
  ghost predicate NewTo(objects: Objects, run: string) {
    forall k :: k in objects ==> OwnerId(k) != Some(run)
  }

  /** What the cleanup reaches: the run's prefix, or that of the alias without its final newline. */
  lemma CleanupTarget(b: string, alias: string, run: string)
    requires LegalBucket(b) && MatchesSafeId(alias) && RunId(run)
    ensures Target(b, ArtifactsUri(b, alias, run)) == Ok(RunPrefix(Bare(alias), run))
  {
    UriOfAlias(b, alias, run);
  }

  lemma NothingThereYet(before: Objects, after: Objects, alias: string, run: string)
    requires MatchesSafeId(alias) && RunId(run)
    requires SameOutside(before, after, RunPrefix(alias, run)) && NewTo(before, run)
    ensures SafeName(alias) ==> Under(before, RunPrefix(alias, run)) == {}
    ensures !SafeName(alias) ==> Under(after, RunPrefix(BeforeFinalNewline(alias), run)) == {}
  {
    var bare := BeforeFinalNewline(alias);
    if SafeName(alias) {
      NoKeyUnder(before, alias, run);
    } else {
      NoKeyUnder(before, bare, run);
      assert alias == bare + "\n";
      forall k | k in after
        ensures !(RunPrefix(bare, run) <= k)
      {
        if RunPrefix(alias, run) <= k { NewlineApart(bare, run, k); }
        assert k in before ==> k !in Under(before, RunPrefix(bare, run));
      }
    }
  }

  lemma NoKeyUnder(objects: Objects, alias: string, run: string)
    requires SafeName(alias) && RunId(run) && NewTo(objects, run)
    ensures Under(objects, RunPrefix(alias, run)) == {}
  {
    RunKeysAreTidy(alias, run);
    forall k | k in objects
      ensures !(RunPrefix(alias, run) <= k)
    {
      if RunPrefix(alias, run) <= k { OwnerOfRunKey(alias, run, k); }
    }
  }

  lemma CleanedIsAsBefore(before: Objects, after: Objects, prefix: string)
    requires SameOutside(before, after, prefix) && Under(before, prefix) == {}
    ensures Under(after, prefix) == {} ==> after == before
  {
    assert forall k :: k in before ==> k !in Under(before, prefix);
    if Under(after, prefix) == {} {
      assert forall k :: k in after ==> k !in Under(after, prefix);
    }
  }
}
