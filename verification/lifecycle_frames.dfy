/** Whose keys a step can touch, and what a failed `log` leaves behind. */
module LifecycleFrames {
  import opened Wrappers
  import opened Layout
  import opened Ids
  import opened Tracking
  import opened S3
  import opened Sweep
  import opened Lifecycle
  import opened LifecycleKeys
  import opened LifecycleSafety
  import Janitor

  function Marker(r: string, p: Producer): string { ScanMarker(Prefix(r, p)) }

  predicate OnlyMarkerLeft(objects: Objects, r: string, p: Producer) {
    forall k :: k in objects && Prefix(r, p) <= k ==> k == Marker(r, p)
  }

  /** A cleanup holds keys of its own run, and misses at most a marker written since it listed. */
  predicate CleanupFits(objects: Objects, r: string, p: Producer) {
    match p.phase
    case Deleting(pending) =>
      (forall k :: k in pending ==> Prefix(r, p) <= k) &&
      (forall k :: k in objects && Prefix(r, p) <= k ==> k in pending || k == Marker(r, p))
    case Failing(true) => OnlyMarkerLeft(objects, r, p)
    case RaisedOut(true, _) => OnlyMarkerLeft(objects, r, p)
    case _ => true
  }

  predicate CleanupOk(s: State) {
    forall r :: r in s.producers ==> CleanupFits(s.objects, r, s.producers[r])
  }

  /** The two buckets agree on a key. */
  predicate Agree(a: Objects, b: Objects, k: string) {
    (k in a <==> k in b) && (k in a ==> a[k] == b[k])
  }

  lemma OwnerOfPrefixed(s: State, r: string, k: string)
    requires Keyed(s) && r in s.producers && Prefix(r, s.producers[r]) <= k
    ensures OwnerId(k) == Some(r)
  {
    assert ProducerKeyed(s, r);
    RunKeysAreTidy(s.producers[r].identity.alias, r);
    OwnerOfRunKey(s.producers[r].identity.alias, r, k);
  }

  /** `log` never touches a key of another run, whatever step it has reached and however it fails. */
  lemma LogTouchesOwnKeys(s: State, r: string, step: ProducerStep, k: string)
    requires Keyed(s) && CleanupOk(s) && CanLog(s, r, step) && OwnerId(k) != Some(r)
    ensures Agree(s.objects, AfterLog(s, r, step).objects, k)
  {
    if step.Store? || step.PutRaised? {
      assert ProducerKeyed(s, r);
      PlannedKeysAreOwn(r, s.producers[r], s.producers[r].phase.next);
    } else if step.CleanupDelete? {
      assert CleanupFits(s.objects, r, s.producers[r]);
      if k in step.keys {
        OwnerOfPrefixed(s, r, k);
        assert false;
      }
    }
  }

  /** A call about one run touches that run's keys; a foreign write touches keys of no known run. */
  lemma CallTouchesOwnKeys(s: State, r: string, step: ClientStep, k: string)
    requires Keyed(s) && CanCall(s, r, step)
    requires OwnerId(k) != Some(r) && (OwnerId(k).Some? && OwnerId(k).value in s.runs)
    ensures Agree(s.objects, AfterCall(s, r, step).objects, k)
  {
    if step.Hold? || step.PurgeDelete? {
      UriFacts(s, r);
      if step.PurgeDelete? && k in step.keys {
        OwnerOfRunKey(s.runs[r].TagValue(ALIAS_TAG).value, r, k);
        assert false;
      }
    }
  }

  /** What the recorded URI of a run reaches and marks. */
  lemma UriFacts(s: State, r: string)
    requires Keyed(s) && r in s.runs && s.runs[r].ArtifactsUri().Some?
    ensures s.runs[r].TagValue(ALIAS_TAG).Some?
    ensures var uri, alias := s.runs[r].ArtifactsUri().value, s.runs[r].TagValue(ALIAS_TAG).value;
            SlashFree(alias) && SlashFree(r) && Janitor.Reach(s.bucket, uri) == RunPrefix(alias, r) &&
            MarkerKey(uri).Ok? && OwnerId(MarkerKey(uri).value.key) == Some(r)
  {
    assert OwnsItsUri(s, r);
    RunUriReaches(s.bucket, s.runs[r].TagValue(ALIAS_TAG).value, r);
  }

  /** `hold` writes the marker and nothing else. */
  lemma HoldWritesTheMarker(s: State, r: string)
    requires Keyed(s) && CanCall(s, r, Hold)
    ensures var alias := s.runs[r].TagValue(ALIAS_TAG).value;
            SafeName(alias) && (r in s.producers ==> alias == s.producers[r].identity.alias) &&
            var marker, t := ScanMarker(RunPrefix(alias, r)), AfterCall(s, r, Hold);
            t.objects == s.objects[marker := Object([], Some(s.clock))] &&
            t.held == s.held + {r} && t.cleared == s.cleared - {marker}
  {
    MarkerOfRun(s, r);
    assert r in s.producers ==> ProducerKeyed(s, r);
  }

  lemma MarkerOfRun(s: State, r: string)
    requires Keyed(s) && r in s.runs && s.runs[r].ArtifactsUri().Some?
    ensures s.runs[r].TagValue(ALIAS_TAG).Some? && SafeName(s.runs[r].TagValue(ALIAS_TAG).value)
    ensures MarkerKey(s.runs[r].ArtifactsUri().value) ==
            Ok(ParsedS3Uri(s.bucket, ScanMarker(RunPrefix(s.runs[r].TagValue(ALIAS_TAG).value, r))))
  {
    assert OwnsItsUri(s, r);
    RunUriReaches(s.bucket, s.runs[r].TagValue(ALIAS_TAG).value, r);
  }

  // ---- the cleanup invariant ----

  /** Losing keys or gaining the marker never spoils a cleanup. */
  lemma FewerKeysStillFit(a: Objects, b: Objects, r: string, p: Producer)
    requires CleanupFits(a, r, p)
    requires forall k :: k in b && Prefix(r, p) <= k ==> k in a || k == Marker(r, p)
    ensures CleanupFits(b, r, p)
  {
  }

  lemma OwnStepKeepsCleanup(s: State, r: string, step: ProducerStep)
    requires Keyed(s) && CleanupOk(s) && CanLog(s, r, step)
    ensures var t := AfterLog(s, r, step);
            r in t.producers && CleanupFits(t.objects, r, t.producers[r])
  {
    if step.CleanupList? {
      ListingFits(s, r);
    } else if step.CleanupDelete? || step.CleanupDone? || step.MarkFailed? || step.MarkRaised? {
      assert CleanupFits(s.objects, r, s.producers[r]);
      CleanupGoesOn(s, r, step);
    }
  }

  /** The cleanup lists exactly what stands under the prefix of its run. */
  lemma CleanupListsItsOwn(s: State, r: string)
    requires r in s.producers && r in s.runs && s.producers[r].phase.Cleaning?
    requires LegalBucket(s.bucket) && SafeName(s.producers[r].identity.alias) && RunId(r)
    ensures CanLog(s, r, CleanupList)
    ensures AfterLog(s, r, CleanupList) == At(s, r, Deleting(Under(s.objects, Prefix(r, s.producers[r]))))
  {
    RunUriReaches(s.bucket, s.producers[r].identity.alias, r);
  }

  lemma ListingFits(s: State, r: string)
    requires Keyed(s) && CanLog(s, r, CleanupList)
    ensures var t := AfterLog(s, r, CleanupList); CleanupFits(t.objects, r, t.producers[r])
  {
    assert ProducerKeyed(s, r);
    CleanupListsItsOwn(s, r);
    FreshListFits(s.objects, r, s.producers[r]);
  }

  lemma FreshListFits(objects: Objects, r: string, p: Producer)
    ensures CleanupFits(objects, r, p.(phase := Deleting(Under(objects, Prefix(r, p)))))
  {
  }

  lemma CleanupGoesOn(s: State, r: string, step: ProducerStep)
    requires CanLog(s, r, step) && r in s.producers && CleanupFits(s.objects, r, s.producers[r])
    requires step.CleanupDelete? || step.CleanupDone? || step.MarkFailed? || step.MarkRaised?
    ensures var t := AfterLog(s, r, step); CleanupFits(t.objects, r, t.producers[r])
  {
  }

  lemma LogKeepsCleanup(s: State, r: string, step: ProducerStep)
    requires Keyed(s) && CleanupOk(s) && CanLog(s, r, step)
    ensures CleanupOk(AfterLog(s, r, step))
  {
    var t := AfterLog(s, r, step);
    forall q | q in t.producers
      ensures CleanupFits(t.objects, q, t.producers[q])
    {
      if q == r {
        OwnStepKeepsCleanup(s, r, step);
      } else {
        LogTouchesOneRun(s, r, step, q);
        forall k | k in t.objects && Prefix(q, s.producers[q]) <= k
          ensures k in s.objects
        {
          OwnerOfPrefixed(s, q, k);
          LogTouchesOwnKeys(s, r, step, k);
        }
        FewerKeysStillFit(s.objects, t.objects, q, s.producers[q]);
      }
    }
  }

  lemma CallAddsOnlyTheMarker(s: State, r: string, step: ClientStep, q: string, k: string)
    requires Keyed(s) && CanCall(s, r, step) && q in s.producers
    requires k in AfterCall(s, r, step).objects && Prefix(q, s.producers[q]) <= k
    ensures k in s.objects || k == Marker(q, s.producers[q])
  {
    OwnerOfPrefixed(s, q, k);
    assert ProducerKeyed(s, q);
    if q != r {
      CallTouchesOwnKeys(s, r, step, k);
    } else if step.Hold? {
      HoldWritesTheMarker(s, r);
    }
  }

  lemma CallKeepsCleanup(s: State, r: string, step: ClientStep)
    requires Keyed(s) && CleanupOk(s) && CanCall(s, r, step)
    ensures CleanupOk(AfterCall(s, r, step))
  {
    var t := AfterCall(s, r, step);
    forall q | q in t.producers
      ensures CleanupFits(t.objects, q, t.producers[q])
    {
      forall k | k in t.objects && Prefix(q, s.producers[q]) <= k
        ensures k in s.objects || k == Marker(q, s.producers[q])
      {
        CallAddsOnlyTheMarker(s, r, step, q, k);
      }
      FewerKeysStillFit(s.objects, t.objects, q, s.producers[q]);
    }
  }

  lemma StepKeepsCleanup(s: State, e: Event)
    requires Keyed(s) && CleanupOk(s) && Can(s, e)
    ensures CleanupOk(After(s, e))
  {
    match e {
      case ByProducer(r, step) => LogKeepsCleanup(s, r, step);
      case ByClient(r, step) => CallKeepsCleanup(s, r, step);
      case _ => FewerObjectsKeepCleanup(s, After(s, e));
    }
  }

  lemma FewerObjectsKeepCleanup(s: State, t: State)
    requires CleanupOk(s) && t.producers == s.producers && t.objects.Keys <= s.objects.Keys
    ensures CleanupOk(t)
  {
  }

  lemma {:induction false} AlwaysCleanupOk(states: seq<State>, events: seq<Event>, i: nat)
    requires IsRun(states, events) && i < |states|
    ensures Safe(states[i]) && CleanupOk(states[i])
  {
    AlwaysSafe(states, events, i);
    if i > 0 {
      AlwaysCleanupOk(states, events, i - 1);
      StepKeepsCleanup(states[i - 1], events[i - 1]);
    }
  }

  // ---- what a failed log leaves ----

  /**
   * A `log` that has raised, in any run of the system: its run is FINISHED exactly when its finishing
   * call took effect and yet raised and FAILED was not recorded afterwards, whether that second call
   * returned or not; if the cleanup returned, nothing stands under its prefix but a retention marker;
   * and if FAILED was recorded, an authoritative sweep past the grace period files whatever is left
   * under the prefix as an orphan or as held.
   */
  lemma FailedLogLeavesNothingBehind(states: seq<State>, events: seq<Event>, i: nat, r: string, v: View)
    requires IsRun(states, events) && i < |states|
    requires r in states[i].producers && states[i].producers[r].phase.RaisedOut?
    ensures var s, p := states[i], states[i].producers[r];
            r in s.runs &&
            (s.runs[r].status == FINISHED <==> r in s.ambiguous && !p.phase.marked) &&
            (p.phase.cleaned ==> OnlyMarkerLeft(s.objects, r, p)) &&
            (p.phase.marked && v.objects == s.objects && v.replies(Prefix(r, p)) == Found(s.runs[r]) &&
             Under(s.objects, Prefix(r, p)) != {} && !WrittenLately(v, Prefix(r, p)) ==>
               Prefix(r, p) in RunPrefixes(v.objects) && CategoryOf(v, Prefix(r, p)) in {Orphan, Held})
  {
    AlwaysCleanupOk(states, events, i);
    var s, p := states[i], states[i].producers[r];
    assert ProducerKeyed(s, r) && CleanupFits(s.objects, r, p);
    assert StatusFits(p.phase, s.runs[r].status, r in s.ambiguous);
    ResidueIsFiled(v, p.identity.alias, r, s.runs[r]);
  }

  /** Settled residue of a failed run is an orphan, or held. */
  lemma ResidueIsFiled(v: View, alias: string, r: string, info: RunInfo)
    requires SafeName(alias) && RunId(r)
    ensures var p := RunPrefix(alias, r);
            v.replies(p) == Found(info) && info.status == FAILED &&
            Under(v.objects, p) != {} && !WrittenLately(v, p) ==>
              p in RunPrefixes(v.objects) && CategoryOf(v, p) in {Orphan, Held}
  {
    var p := RunPrefix(alias, r);
    RunKeysAreTidy(alias, r);
    RunIdOfPrefix(alias, r);
    if Under(v.objects, p) != {} {
      var k :| k in Under(v.objects, p);
      ListedOfRun(alias, r, k);
    }
  }

  /** No step of a `log` call, failing or not, touches another run's keys or its entry in the index. */
  lemma LogLeavesOthersAlone(states: seq<State>, events: seq<Event>, i: nat, q: string, k: string)
    requires IsRun(states, events) && i < |events| && events[i].ByProducer? && events[i].run != q
    requires OwnerId(k) == Some(q)
    ensures Agree(states[i].objects, states[i + 1].objects, k)
    ensures q in states[i].runs <==> q in states[i + 1].runs
    ensures q in states[i].runs ==> states[i + 1].runs[q] == states[i].runs[q]
  {
    AlwaysCleanupOk(states, events, i);
    LogTouchesOwnKeys(states[i], events[i].run, events[i].log, k);
    LogTouchesOneRun(states[i], events[i].run, events[i].log, q);
  }
}
