/** experiment_store/s3_layout.py: listing, deleting and marking a run's prefix. */
module Prefixes {
  import opened Wrappers
  import opened Paging
  import opened Layout
  import opened Ids
  import opened S3

  const DELETE_BATCH := 1000

  datatype PrefixError = BadUri(error: UriError) | DeleteFailed

  /** The key a URI names in this client's bucket. */
  function Target(bucket: string, uri: string): Result<string, UriError> {
    match ParseS3Uri(uri)
    case Err(e) => Err(e)
    case Ok(u) => if u.bucket != bucket then Err(OtherBucket) else Ok(u.key)
  }

  lemma TargetOfPrefix(bucket: string, p: string)
    requires LegalBucket(bucket) && p != ""
    ensures Target(bucket, Uri(bucket, p)) == Ok(p) <==> Tidy(p)
  {
    UriNamesItsPrefix(bucket, p);
    ParseOfUri(bucket, p);
  }

  /** The URI of a key in another bucket is refused, and that of a bucket alone names no key. */
  lemma TargetOfAnyBucket(bucket: string, other: string, key: string)
    requires LegalBucket(bucket) && LegalBucket(other)
    ensures Tidy(key) ==>
              Target(bucket, "s3://" + other + "/" + key) == if other == bucket then Ok(key) else Err(OtherBucket)
    ensures Target(bucket, "s3://" + other + "/") == if other == bucket then Ok("") else Err(OtherBucket)
  {
    PlainUriReadsBack(other, key);
    BucketsHaveNoKey(other);
  }

  /** What deleting by the URI of a logged run deletes. */
  lemma TargetOfALoggedRun(bucket: string, alias: string, runId: string)
    requires LegalBucket(bucket) && SafeName(alias) && RunId(runId)
    ensures Target(bucket, ArtifactsUri(bucket, alias, runId)) == Ok(alias + "/" + runId + "/")
  {
    RunKeysAreTidy(alias, runId);
    TargetOfPrefix(bucket, RunPrefix(alias, runId));
  }

  /** The paging loop of `list_prefix`. */
  method ListKeys(s3: S3Client, prefix: string) returns (keys: seq<string>)
    ensures Lists(keys, Under(s3.objects, prefix))
  {
    var page := s3.ListObjects(prefix, None);
    ghost var all := page.items + Owed(page.next);
    keys := page.items;
    while page.next.Some?
      invariant keys + Owed(page.next) == all
      decreases if page.next.Some? then 1 + |page.next.value.rest| + page.next.value.idle else 0
    {
      page := s3.ListObjects(prefix, page.next);
      keys := keys + page.items;
    }
    assert keys == all;
  }

  /** `list_prefix` */
  method ListPrefix(s3: S3Client, uri: string) returns (r: Result<seq<string>, PrefixError>)
    ensures var target := Target(s3.bucket, uri);
            if target.Ok? then r.Ok? && Lists(r.value, Under(s3.objects, target.value))
            else r == Err(BadUri(target.error))
  {
    var target := Target(s3.bucket, uri);
    if target.Err? {
      return Err(BadUri(target.error));
    }
    var keys := ListKeys(s3, target.value);
    r := Ok(keys);
  }

  /** `delete_prefix` */
  method DeletePrefix(s3: S3Client, uri: string) returns (r: Result<nat, PrefixError>)
    modifies s3`objects, s3`failures
    ensures s3.failures == old(s3.failures) + if r == Err(DeleteFailed) then 1 else 0
    ensures var target := Target(s3.bucket, uri);
            if target.Err? then r == Err(BadUri(target.error)) && s3.objects == old(s3.objects)
            else if target.value == "" then r == Err(BadUri(EmptyKey)) && s3.objects == old(s3.objects)
            else OnlyLost(old(s3.objects), s3.objects, Under(old(s3.objects), target.value)) &&
                 (r.Err? ==> r.error == DeleteFailed) &&
                 (r.Ok? ==> Under(s3.objects, target.value) == {} &&
                            r.value == |Under(old(s3.objects), target.value)|)
    ensures var target := Target(s3.bucket, uri);
            target.Ok? && target.value != "" ==>
              (forall k :: k in old(s3.objects) && !(target.value <= k) ==>
                 k in s3.objects && s3.objects[k] == old(s3.objects)[k]) &&
              (forall k :: k in s3.objects ==> k in old(s3.objects) && (r.Ok? ==> !(target.value <= k))) &&
              (r.Ok? ==> r.value == |set k | k in old(s3.objects) && target.value <= k|)
  {
    var target := Target(s3.bucket, uri);
    if target.Err? {
      return Err(BadUri(target.error));
    }
    if target.value == "" {
      return Err(BadUri(EmptyKey));
    }
    var listed := ListPrefix(s3, uri);
    ListedSize(listed.value, Under(s3.objects, target.value));
    r := DeleteKeys(s3, listed.value);
  }

  /** The batches of `delete_prefix`. */
  method DeleteKeys(s3: S3Client, keys: seq<string>) returns (r: Result<nat, PrefixError>)
    modifies s3`objects, s3`failures
    ensures s3.failures == old(s3.failures) + if r.Err? then 1 else 0
    ensures OnlyLost(old(s3.objects), s3.objects, set k | k in keys)
    ensures r.Err? ==> r.error == DeleteFailed
    ensures r.Ok? ==> r.value == |keys| && forall k :: k in keys ==> k !in s3.objects
  {
    ghost var doomed := set k | k in keys;
    var deleted := 0;
    var i := 0;
    while i < |keys|
      invariant 0 <= i <= |keys| && deleted == i && s3.failures == old(s3.failures)
      invariant OnlyLost(old(s3.objects), s3.objects, doomed)
      invariant forall k :: k in keys[..i] ==> k !in s3.objects
    {
      var end := if i + DELETE_BATCH < |keys| then i + DELETE_BATCH else |keys|;
      var batch := keys[i..end];
      assert forall k :: k in batch ==> k in keys;
      var answer := s3.DeleteObjects(batch);
      if answer.DeleteRaised? || answer.errors != [] {
        return Err(DeleteFailed);
      }
      assert keys[..end] == keys[..i] + batch;
      deleted := deleted + |answer.deleted|;
      i := end;
    }
    assert keys[..|keys|] == keys;
    r := Ok(deleted);
  }

  /** `write_retention_marker` */
  method WriteRetentionMarker(s3: S3Client, uri: string, now: Time) returns (r: Result<string, UriError>)
    modifies s3`objects
    ensures match MarkerKey(uri)
            case Err(e) => r == Err(e) && s3.objects == old(s3.objects)
            case Ok(m) =>
              if m.bucket != s3.bucket then r == Err(OtherBucket) && s3.objects == old(s3.objects)
              else r == Ok(m.key) && s3.objects == old(s3.objects)[m.key := Object([], Some(now))]
  {
    var marker := MarkerKey(uri);
    if marker.Err? {
      return Err(marker.error);
    }
    if marker.value.bucket != s3.bucket {
      return Err(OtherBucket);
    }
    s3.PutObject(marker.value.key, [], now);
    r := Ok(marker.value.key);
  }

  // ---- what a delete leaves ----

  /** `before` without the keys under `prefix`. */
  ghost predicate Emptied(before: Objects, after: Objects, prefix: string) {
    (forall k :: k in after <==> k in before && !(prefix <= k)) &&
    (forall k :: k in after ==> after[k] == before[k])
  }

  /**
   * A delete that stopped half way, repeated until it returns, leaves what one clean delete would
   * have left.
   */
  lemma RepeatFinishesTheJob(first: Objects, partial: Objects, last: Objects, prefix: string)
    requires OnlyLost(first, partial, Under(first, prefix))
    requires OnlyLost(partial, last, Under(partial, prefix)) && Under(last, prefix) == {}
    ensures Emptied(first, last, prefix)
  {
    assert forall k :: k in last ==> k !in Under(last, prefix);
  }

  /** Whatever a delete of one run's prefix removed, every other run keeps its keys and its bytes. */
  lemma OtherRunsKeepTheirKeys(before: Objects, after: Objects,
                               alias: string, runId: string, alias': string, runId': string)
    requires SlashFree(alias) && SlashFree(runId) && SlashFree(alias') && SlashFree(runId')
    requires (alias, runId) != (alias', runId')
    requires OnlyLost(before, after, Under(before, RunPrefix(alias, runId)))
    ensures Under(after, RunPrefix(alias', runId')) == Under(before, RunPrefix(alias', runId'))
    ensures forall k :: k in Under(before, RunPrefix(alias', runId')) ==> after[k] == before[k]
  {
    forall k | k in before && RunPrefix(alias', runId') <= k
      ensures k in after
    {
      if RunPrefix(alias, runId) <= k {
        OnePrefixPerKey(alias, runId, alias', runId', k);
      }
    }
  }
}
