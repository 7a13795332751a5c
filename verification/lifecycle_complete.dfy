/** FINISHED implies complete, in every interleaving, and exactly when. */
module LifecycleComplete {
  import opened Wrappers
  import opened Layout
  import opened Ids
  import opened Tracking
  import opened S3
  import opened Lifecycle
  import opened LifecycleKeys
  import opened LifecycleSafety
  import opened LifecycleFrames
  import Upload

  /** Neither deleted, purged, failed nor killed so far. */
  predicate Intact(s: State, r: string) {
    r in s.runs && !s.runs[r].deleted && s.runs[r].status in {RUNNING, FINISHED} && r !in s.purgeBegun
  }

  /** How many planned objects the producer has confirmed; a call that finished its run confirmed all. */
  function Confirmed(r: string, p: Producer, finished: bool): nat {
    match p.phase
    case Uploading(n) => n
    case Logging(_) | Finishing | Returned => |PlanOf(r, p)|
    case _ => if finished then |PlanOf(r, p)| else 0
  }

  /** The content the producer has logged. */
  function LoggedKeys(p: Producer, finished: bool): set<ContentKey> {
    match p.phase
    case Logging(left) => p.content.Keys - left
    case Finishing | Returned => p.content.Keys
    case _ => if finished then p.content.Keys else {}
  }

  /** The bytes a planned object has while it is there: a hold writes the marker over its namesake. */
  function BytesOf(x: Upload.Planned, marker: string, held: bool): Bytes {
    if held && x.key == marker then [] else x.data
  }

  /** A confirmed object is gone only if a cleanup deleted it. */
  predicate InPlace(s: State, x: Upload.Planned, marker: string, held: bool) {
    (x.key in s.objects <==> x.key !in s.cleared) &&
    (x.key in s.objects ==> s.objects[x.key].data == BytesOf(x, marker, held))
  }

  predicate Planned(r: string, p: Producer, finished: bool) {
    (p.phase.Uploading? || p.phase.Logging? || p.phase.Finishing? || p.phase.Returned? || finished) ==>
      Upload.Plannable(p.artifacts) && Confirmed(r, p, finished) <= |PlanOf(r, p)|
  }

  predicate ObjectsKept(s: State, r: string, p: Producer) {
    Planned(r, p, r in s.ambiguous) &&
    forall i :: 0 <= i < Confirmed(r, p, r in s.ambiguous) && i < |PlanOf(r, p)| ==>
      InPlace(s, PlanOf(r, p)[i], Marker(r, p), r in s.held)
  }

  predicate ContentKept(s: State, r: string, p: Producer)
    requires r in s.runs
  {
    (forall k :: k in LoggedKeys(p, r in s.ambiguous) ==>
       k in p.content && k in s.runs[r].logged && s.runs[r].logged[k] == p.content[k]) &&
    (p.phase.Finishing? || p.phase.Returned? || r in s.ambiguous ==>
       s.runs[r].ArtifactsUri() == Some(OwnUri(s, r, p)))
  }

  predicate Kept(s: State, r: string)
    requires r in s.producers && r in s.runs
  {
    ObjectsKept(s, r, s.producers[r]) && ContentKept(s, r, s.producers[r])
  }

  predicate CompleteOk(s: State) {
    forall r :: r in s.producers && r in s.runs && Intact(s, r) ==> Kept(s, r)
  }

  // ---- the history ----

  predicate Early(phase: Phase) { phase.Planning? || phase.Uploading? || phase.Logging? }

  /** No URI is recorded before all objects are confirmed, so no hold can come before them. */
  predicate NotYetHeld(s: State, r: string) {
    r in s.producers && Early(s.producers[r].phase) ==>
      r !in s.held && r !in s.ambiguous && r in s.runs && s.runs[r].ArtifactsUri().None?
  }

  predicate PastListing(phase: Phase) { phase.Deleting? || phase.Failing? || phase.RaisedOut? }

  /** The keys a cleanup has deleted are those of a call that got as far. */
  predicate OfACleanup(s: State, k: string) {
    OwnerId(k).Some? && OwnerId(k).value in s.producers && PastListing(s.producers[OwnerId(k).value].phase)
  }

  predicate HistoryOk(s: State) {
    s.held <= s.runs.Keys && s.ambiguous <= s.producers.Keys &&
    (forall r :: r in s.producers ==> NotYetHeld(s, r)) &&
    (forall k :: k in s.cleared ==> OfACleanup(s, k))
  }

  predicate Sound(s: State) { Safe(s) && CleanupOk(s) && HistoryOk(s) && CompleteOk(s) }

  lemma LogKeepsOthersHistory(s: State, r: string, step: ProducerStep)
    requires CanLog(s, r, step)
    ensures var t := AfterLog(s, r, step);
            t.held == s.held &&
            t.cleared == if step.CleanupDelete? then s.cleared + step.keys else s.cleared
  {
  }

  lemma OwnStepKeepsNotYetHeld(s: State, r: string, step: ProducerStep)
    requires Keyed(s) && StatusOk(s) && HistoryOk(s) && CanLog(s, r, step)
    ensures NotYetHeld(AfterLog(s, r, step), r)
  {
    assert r in s.producers ==> NotYetHeld(s, r) && ProducerKeyed(s, r);
    if step.Create? {
      CreationFacts(step.identity);
    }
  }

  lemma OwnStepStaysPastListing(s: State, r: string, step: ProducerStep)
    requires CanLog(s, r, step) && (step.CleanupDelete? || (r in s.producers && PastListing(s.producers[r].phase)))
    ensures PastListing(AfterLog(s, r, step).producers[r].phase)
  {
  }

  lemma LogKeepsCleared(s: State, r: string, step: ProducerStep, k: string)
    requires Keyed(s) && CleanupOk(s) && HistoryOk(s) && CanLog(s, r, step)
    requires k in AfterLog(s, r, step).cleared
    ensures OfACleanup(AfterLog(s, r, step), k)
  {
    LogKeepsOthersHistory(s, r, step);
    if k in s.cleared {
      var q := OwnerId(k).value;
      assert OfACleanup(s, k);
      if q == r { OwnStepStaysPastListing(s, r, step); } else { LogTouchesOneRun(s, r, step, q); }
    } else {
      assert CleanupFits(s.objects, r, s.producers[r]);
      OwnerOfPrefixed(s, r, k);
      OwnStepStaysPastListing(s, r, step);
    }
  }

  lemma LogKeepsHistory(s: State, r: string, step: ProducerStep)
    requires Keyed(s) && StatusOk(s) && CleanupOk(s) && HistoryOk(s) && CanLog(s, r, step)
    ensures HistoryOk(AfterLog(s, r, step))
  {
    var t := AfterLog(s, r, step);
    LogKeepsOthersHistory(s, r, step);
    LogKeepsStatus(s, r, step);
    forall q | q in t.producers
      ensures NotYetHeld(t, q)
    {
      if q == r {
        OwnStepKeepsNotYetHeld(s, r, step);
      } else {
        LogTouchesOneRun(s, r, step, q);
        assert NotYetHeld(s, q);
      }
    }
    forall k | k in t.cleared
      ensures OfACleanup(t, k)
    {
      LogKeepsCleared(s, r, step, k);
    }
    RunsStay(s, r, step);
  }

  lemma RunsStay(s: State, r: string, step: ProducerStep)
    requires CanLog(s, r, step)
    ensures s.runs.Keys <= AfterLog(s, r, step).runs.Keys
  {
  }

  lemma CallKeepsOneHistory(s: State, q: string, step: ClientStep, r: string)
    requires HistoryOk(s) && CanCall(s, q, step)
    ensures var t := AfterCall(s, q, step);
            (r in t.producers ==> NotYetHeld(t, r)) &&
            (r in t.producers <==> r in s.producers) &&
            (r in s.producers && PastListing(s.producers[r].phase) ==> t.producers[r] == s.producers[r])
  {
    assert r in s.producers ==> NotYetHeld(s, r);
  }

  lemma CallKeepsHeld(s: State, q: string, step: ClientStep)
    requires HistoryOk(s) && CanCall(s, q, step)
    ensures var t := AfterCall(s, q, step);
            t.held <= t.runs.Keys && t.ambiguous <= t.producers.Keys && t.cleared <= s.cleared
  {
  }

  lemma CallKeepsHistory(s: State, q: string, step: ClientStep)
    requires HistoryOk(s) && CanCall(s, q, step)
    ensures HistoryOk(AfterCall(s, q, step))
  {
    var t := AfterCall(s, q, step);
    CallKeepsHeld(s, q, step);
    forall r | r in t.producers
      ensures NotYetHeld(t, r)
    {
      CallKeepsOneHistory(s, q, step, r);
    }
    forall k | k in t.cleared
      ensures OfACleanup(t, k)
    {
      assert OfACleanup(s, k);
      CallKeepsOneHistory(s, q, step, OwnerId(k).value);
    }
  }

  lemma SameHistory(s: State, t: State)
    requires HistoryOk(s) && t.runs == s.runs && t.producers == s.producers
    requires t.held == s.held && t.ambiguous == s.ambiguous && t.cleared == s.cleared
    ensures HistoryOk(t)
  {
    assert forall r :: NotYetHeld(s, r) ==> NotYetHeld(t, r);
    assert forall k :: OfACleanup(s, k) ==> OfACleanup(t, k);
  }

  lemma StepKeepsHistory(s: State, e: Event)
    requires Safe(s) && CleanupOk(s) && HistoryOk(s) && Can(s, e)
    ensures HistoryOk(After(s, e))
  {
    match e {
      case ByProducer(r, step) => LogKeepsHistory(s, r, step);
      case ByClient(r, step) => CallKeepsHistory(s, r, step);
      case ByJanitor(step) => SweepTouchesNoRun(s, step); SameHistory(s, After(s, e));
      case Tick(_) => SameHistory(s, After(s, e));
    }
  }

  // ---- a producer's own steps ----

  lemma OtherPlannedKey(r: string, p: Producer, i: nat, j: nat)
    requires Upload.Plannable(p.artifacts) && i < |PlanOf(r, p)| && j < |PlanOf(r, p)| && i != j
    ensures PlanOf(r, p)[i].key != PlanOf(r, p)[j].key
  {
    Upload.PlanStaysInside(RunPrefix(p.identity.alias, r), Upload.AllFiles(p.artifacts));
    if j < i { assert PlanOf(r, p)[j].key != PlanOf(r, p)[i].key; }
  }

  /** What a producer is uploading has never been cleared. */
  lemma NothingClearedYet(s: State, r: string, i: nat)
    requires Keyed(s) && HistoryOk(s) && r in s.producers && s.producers[r].phase.Uploading?
    requires i < |PlanOf(r, s.producers[r])|
    ensures PlanOf(r, s.producers[r])[i].key !in s.cleared && r !in s.held && r !in s.ambiguous
  {
    var k := PlanOf(r, s.producers[r])[i].key;
    assert ProducerKeyed(s, r) && NotYetHeld(s, r);
    PlannedKeysAreOwn(r, s.producers[r], i);
    assert k in s.cleared ==> OfACleanup(s, k);
  }

  lemma PutKeepsObjects(s: State, r: string)
    requires Keyed(s) && HistoryOk(s) && r in s.producers && s.producers[r].phase.Uploading?
    requires s.producers[r].phase.next < |PlanOf(r, s.producers[r])|
    requires ObjectsKept(s, r, s.producers[r])
    ensures ObjectsKept(Put(s, r), r, s.producers[r])
    ensures var p := s.producers[r];
            InPlace(Put(s, r), PlanOf(r, p)[p.phase.next], Marker(r, p), r in s.held)
  {
    var p := s.producers[r];
    NothingClearedYet(s, r, p.phase.next);
    forall i | 0 <= i < p.phase.next
      ensures InPlace(Put(s, r), PlanOf(r, p)[i], Marker(r, p), r in s.held)
    {
      OtherPlannedKey(r, p, i, p.phase.next);
    }
  }

  lemma StoreKeeps(s: State, r: string, step: ProducerStep)
    requires Keyed(s) && HistoryOk(s)
    requires CanLog(s, r, step) && (step.Store? || step.PutRaised?) && Kept(s, r)
    ensures Kept(AfterLog(s, r, step), r)
  {
    PutKeepsObjects(s, r);
    NothingClearedYet(s, r, s.producers[r].phase.next);
    StoringPuts(s, r, step);
    StoredIsKept(s, r, AfterLog(s, r, step));
  }

  lemma StoringPuts(s: State, r: string, step: ProducerStep)
    requires CanLog(s, r, step) && (step.Store? || step.PutRaised?)
    ensures var t := AfterLog(s, r, step);
            r in t.runs && (t == Put(s, r) || t == At(Put(s, r), r, Uploading(s.producers[r].phase.next + 1)))
  {
  }

  lemma StoredIsKept(s: State, r: string, t: State)
    requires r in s.producers && s.producers[r].phase.Uploading? && r !in s.ambiguous
    requires s.producers[r].phase.next < |PlanOf(r, s.producers[r])|
    requires var p := s.producers[r];
             ObjectsKept(Put(s, r), r, p) &&
             InPlace(Put(s, r), PlanOf(r, p)[p.phase.next], Marker(r, p), r in s.held)
    requires t == Put(s, r) || t == At(Put(s, r), r, Uploading(s.producers[r].phase.next + 1))
    requires r in t.runs
    ensures Kept(t, r)
  {
    assert PlanOf(r, t.producers[r]) == PlanOf(r, s.producers[r]);
    assert LoggedKeys(t.producers[r], false) == {};
  }

  lemma WriteKeeps(s: State, r: string, step: ProducerStep)
    requires CanLog(s, r, step) && (step.LogContent? || step.SetUri?) && Kept(s, r) && ProducerKeyed(s, r)
    requires NotYetHeld(s, r)
    ensures Kept(AfterLog(s, r, step), r)
  {
    assert PlanOf(r, AfterLog(s, r, step).producers[r]) == PlanOf(r, s.producers[r]);
  }

  lemma PhaseKeeps(s: State, r: string, step: ProducerStep)
    requires CanLog(s, r, step) && (step.PlanUpload? || step.UploadDone? || step.Finish? || step.FinishAmbiguously?)
    requires Kept(s, r)
    ensures Kept(AfterLog(s, r, step), r)
  {
    assert PlanOf(r, AfterLog(s, r, step).producers[r]) == PlanOf(r, s.producers[r]);
  }

  /** A call that leaves its body without having finished its run has nothing to keep. */
  lemma BodyIsLeft(s: State, r: string, step: ProducerStep)
    requires CanLog(s, r, step) && r !in s.ambiguous
    requires step.Create? || step.Fail? || LeavesBody(step)
    ensures Kept(AfterLog(s, r, step), r)
  {
    NotInBody(s, r, step);
    NothingToKeep(AfterLog(s, r, step), r);
  }

  lemma NotInBody(s: State, r: string, step: ProducerStep)
    requires CanLog(s, r, step) && r !in s.ambiguous
    requires step.Create? || step.Fail? || LeavesBody(step)
    ensures var t := AfterLog(s, r, step);
            r in t.producers && r in t.runs && r !in t.ambiguous &&
            (t.producers[r].phase.Planning? || !InBody(t.producers[r].phase)) && !t.producers[r].phase.Returned?
  {
  }

  lemma NothingToKeep(s: State, r: string)
    requires r in s.producers && r in s.runs && r !in s.ambiguous && !s.producers[r].phase.Returned?
    requires s.producers[r].phase.Planning? || !InBody(s.producers[r].phase)
    ensures Kept(s, r)
  {
  }

  predicate LeavesBody(step: ProducerStep) {
    step.CleanupList? || step.CleanupDelete? || step.CleanupDone? || step.CleanupRaised? ||
    step.MarkFailed? || step.MarkRaised?
  }

  /** The cleanup of a finished run takes away exactly what it clears. */
  lemma CleanupKeeps(s: State, r: string, step: ProducerStep)
    requires CanLog(s, r, step) && LeavesBody(step) && r in s.ambiguous && Kept(s, r)
    ensures Kept(AfterLog(s, r, step), r)
  {
    var t := AfterLog(s, r, step);
    assert PlanOf(r, t.producers[r]) == PlanOf(r, s.producers[r]);
    assert t.ambiguous == s.ambiguous && t.held == s.held;
  }

  lemma OwnStepKeeps(s: State, r: string, step: ProducerStep)
    requires Keyed(s) && StatusOk(s) && HistoryOk(s) && CompleteOk(s) && CanLog(s, r, step)
    requires !step.Create? ==> Intact(s, r)
    ensures Kept(AfterLog(s, r, step), r)
  {
    if step.Create? {
      BodyIsLeft(s, r, step);
    } else {
      OwnFacts(s, r);
      KeptByStep(s, r, step);
    }
  }

  lemma OwnFacts(s: State, r: string)
    requires Keyed(s) && StatusOk(s) && HistoryOk(s) && CompleteOk(s) && r in s.producers && r in s.runs && Intact(s, r)
    ensures Kept(s, r) && ProducerKeyed(s, r) && NotYetHeld(s, r)
    ensures r in s.ambiguous ==> !InBody(s.producers[r].phase)
  {
    assert StatusFits(s.producers[r].phase, s.runs[r].status, r in s.ambiguous);
  }

  lemma KeptByStep(s: State, r: string, step: ProducerStep)
    requires Keyed(s) && HistoryOk(s) && CanLog(s, r, step) && !step.Create?
    requires Kept(s, r) && ProducerKeyed(s, r) && NotYetHeld(s, r)
    requires r in s.ambiguous ==> !InBody(s.producers[r].phase)
    ensures Kept(AfterLog(s, r, step), r)
  {
    if step.Store? || step.PutRaised? {
      StoreKeeps(s, r, step);
    } else if step.LogContent? || step.SetUri? {
      WriteKeeps(s, r, step);
    } else if step.PlanUpload? || step.UploadDone? || step.Finish? || step.FinishAmbiguously? {
      PhaseKeeps(s, r, step);
    } else {
      CleanupOrFailKeeps(s, r, step);
    }
  }

  lemma CleanupOrFailKeeps(s: State, r: string, step: ProducerStep)
    requires CanLog(s, r, step) && (step.Fail? || LeavesBody(step)) && Kept(s, r)
    requires r in s.ambiguous ==> !InBody(s.producers[r].phase)
    ensures Kept(AfterLog(s, r, step), r)
  {
    if r in s.ambiguous {
      CleanupKeeps(s, r, step);
    } else {
      BodyIsLeft(s, r, step);
    }
  }

  // ---- everybody else's ----

  /** Each of the run's own keys fares in `t` as in `s`. */
  ghost predicate OwnKeysSurvive(s: State, t: State, r: string) {
    forall k :: OwnerId(k) == Some(r) ==> Agree(s.objects, t.objects, k) && (k in t.cleared <==> k in s.cleared)
  }

  lemma KeptInFrame(s: State, t: State, r: string)
    requires Keyed(s) && r in s.producers && r in s.runs && Kept(s, r)
    requires r in t.producers && t.producers[r] == s.producers[r] && t.bucket == s.bucket
    requires r in t.runs && t.runs[r].logged == s.runs[r].logged
    requires (r in t.ambiguous <==> r in s.ambiguous) && (r in t.held <==> r in s.held)
    requires OwnKeysSurvive(s, t, r)
    ensures Kept(t, r)
  {
    var p := s.producers[r];
    assert ProducerKeyed(s, r);
    forall i | 0 <= i < Confirmed(r, p, r in s.ambiguous) && i < |PlanOf(r, p)|
      ensures InPlace(t, PlanOf(r, p)[i], Marker(r, p), r in t.held)
    {
      PlannedKeysAreOwn(r, p, i);
    }
  }

  lemma OtherLogsKeep(s: State, q: string, step: ProducerStep, r: string)
    requires Sound(s) && CanLog(s, q, step) && r != q
    requires r in s.producers && r in s.runs && Kept(s, r)
    ensures var t := AfterLog(s, q, step); r in t.producers && r in t.runs && Kept(t, r)
  {
    var t := AfterLog(s, q, step);
    LogTouchesOneRun(s, q, step, r);
    LogKeepsOthersHistory(s, q, step);
    forall k | OwnerId(k) == Some(r)
      ensures Agree(s.objects, t.objects, k) && (k in t.cleared <==> k in s.cleared)
    {
      LogTouchesOwnKeys(s, q, step, k);
      OnlyOwnKeysAreCleared(s, q, step, k);
    }
    KeptInFrame(s, t, r);
  }

  lemma OnlyOwnKeysAreCleared(s: State, q: string, step: ProducerStep, k: string)
    requires Keyed(s) && CleanupOk(s) && CanLog(s, q, step) && OwnerId(k) != Some(q)
    ensures step.CleanupDelete? ==> k !in step.keys
  {
    if step.CleanupDelete? && k in step.keys {
      assert CleanupFits(s.objects, q, s.producers[q]);
      OwnerOfPrefixed(s, q, k);
      assert false;
    }
  }

  lemma HoldKeeps(s: State, r: string)
    requires Keyed(s) && CanCall(s, r, Hold) && r in s.producers && Kept(s, r)
    ensures Kept(AfterCall(s, r, Hold), r)
  {
    HoldWritesTheMarker(s, r);
    HeldIsKept(s, r, AfterCall(s, r, Hold));
  }

  lemma HeldIsKept(s: State, r: string, t: State)
    requires r in s.producers && r in s.runs && Kept(s, r)
    requires var m := Marker(r, s.producers[r]);
             t == s.(objects := s.objects[m := Object([], Some(s.clock))],
                     held := s.held + {r},
                     cleared := s.cleared - {m})
    ensures Kept(t, r)
  {
  }

  lemma CallsKeep(s: State, q: string, step: ClientStep, r: string)
    requires Sound(s) && CanCall(s, q, step)
    requires r in s.producers && r in s.runs && Kept(s, r) && Intact(AfterCall(s, q, step), r)
    ensures Kept(AfterCall(s, q, step), r)
  {
    if q == r && step.Hold? {
      HoldKeeps(s, r);
    } else {
      CallLeavesRun(s, q, step, r);
      forall k | OwnerId(k) == Some(r)
        ensures Agree(s.objects, AfterCall(s, q, step).objects, k)
        ensures k in AfterCall(s, q, step).cleared <==> k in s.cleared
      {
        OtherCallsAgree(s, q, step, r, k);
      }
      KeptInFrame(s, AfterCall(s, q, step), r);
    }
  }

  lemma CallLeavesRun(s: State, q: string, step: ClientStep, r: string)
    requires StatusOk(s) && CanCall(s, q, step) && !(q == r && step.Hold?)
    requires r in s.producers && r in s.runs && Intact(AfterCall(s, q, step), r)
    ensures var t := AfterCall(s, q, step);
            r in t.producers && t.producers[r] == s.producers[r] && t.bucket == s.bucket &&
            r in t.runs && t.runs[r].logged == s.runs[r].logged &&
            t.ambiguous == s.ambiguous && (r in t.held <==> r in s.held) &&
            (q == r && step.PurgeDelete? ==> r in t.purgeBegun)
  {
  }

  lemma OtherCallsAgree(s: State, q: string, step: ClientStep, r: string, k: string)
    requires Keyed(s) && CanCall(s, q, step) && !(q == r && (step.Hold? || step.PurgeDelete?))
    requires r in s.runs && OwnerId(k) == Some(r)
    ensures Agree(s.objects, AfterCall(s, q, step).objects, k)
    ensures k in AfterCall(s, q, step).cleared <==> k in s.cleared
  {
    if q != r {
      if !step.PutForeign? { CallTouchesOwnKeys(s, q, step, k); }
      if step.Hold? { HoldMarksItsOwn(s, q); }
    }
  }

  lemma HoldMarksItsOwn(s: State, q: string)
    requires Keyed(s) && CanCall(s, q, Hold)
    ensures OwnerId(MarkerKey(s.runs[q].ArtifactsUri().value).value.key) == Some(q)
  {
    MarkerOfRun(s, q);
    RunUriReaches(s.bucket, s.runs[q].TagValue(ALIAS_TAG).value, q);
  }

  lemma SweepsKeep(s: State, step: JanitorStep, r: string)
    requires Sound(s) && CanSweep(s, step)
    requires r in s.producers && r in s.runs && Kept(s, r) && Intact(s, r)
    ensures Kept(AfterSweep(s, step), r)
  {
    var t := AfterSweep(s, step);
    SweepTouchesNoRun(s, step);
    forall k | OwnerId(k) == Some(r)
      ensures Agree(s.objects, t.objects, k)
    {
      if k in s.objects && k !in t.objects {
        RemovedKeysAreOrphaned(s, step, k);
        assert false;
      }
      SweepsOnlyRemove(s, step, k);
    }
    KeptInFrame(s, t, r);
  }

  lemma SweepsOnlyRemove(s: State, step: JanitorStep, k: string)
    requires CanSweep(s, step)
    ensures var t := AfterSweep(s, step); k in t.objects ==> k in s.objects && t.objects[k] == s.objects[k]
  {
  }

  lemma NotIntactIsDead(s: State, r: string)
    requires Safe(s) && r in s.producers && r in s.runs && !Intact(s, r) && r !in s.purgeBegun
    ensures Dead(s, r)
  {
    assert StatusFits(s.producers[r].phase, s.runs[r].status, r in s.ambiguous);
  }

  lemma PurgesStayBegun(s: State, e: Event)
    requires Can(s, e)
    ensures s.purgeBegun <= After(s, e).purgeBegun
  {
  }

  lemma IntactBefore(s: State, e: Event, r: string)
    requires Sound(s) && Can(s, e) && r in s.producers && r in s.runs && Intact(After(s, e), r)
    ensures Intact(s, r)
  {
    PurgesStayBegun(s, e);
    if !Intact(s, r) && r !in s.purgeBegun {
      NotIntactIsDead(s, r);
      DeadStaysDead(s, e, r);
    }
  }

  lemma StepKeepsOne(s: State, e: Event, r: string)
    requires Sound(s) && Can(s, e)
    requires r in After(s, e).producers && r in After(s, e).runs && Intact(After(s, e), r)
    ensures Kept(After(s, e), r)
  {
    if e.ByProducer? && e.run == r && e.log.Create? {
      OwnStepKeeps(s, r, e.log);
    } else {
      WasThereBefore(s, e, r);
      IntactBefore(s, e, r);
      match e {
        case ByProducer(q, step) =>
          if q == r { OwnStepKeeps(s, r, step); } else { OtherLogsKeep(s, q, step, r); }
        case ByClient(q, step) => CallsKeep(s, q, step, r);
        case ByJanitor(step) => SweepsKeep(s, step, r);
        case Tick(_) => KeptInFrame(s, After(s, e), r);
      }
    }
  }

  lemma WasThereBefore(s: State, e: Event, r: string)
    requires Keyed(s) && Can(s, e) && r in After(s, e).producers
    requires !(e.ByProducer? && e.run == r && e.log.Create?)
    ensures r in s.producers && r in s.runs
  {
    match e {
      case ByProducer(q, step) => if q != r { LogTouchesOneRun(s, q, step, r); }
      case ByClient(q, step) => CallsAddNoProducer(s, q, step);
      case ByJanitor(step) => SweepTouchesNoRun(s, step);
      case Tick(_) =>
    }
    assert r in s.producers ==> ProducerKeyed(s, r);
  }

  lemma CallsAddNoProducer(s: State, q: string, step: ClientStep)
    requires CanCall(s, q, step)
    ensures AfterCall(s, q, step).producers.Keys == s.producers.Keys
  {
  }

  lemma {:induction false} AlwaysSound(states: seq<State>, events: seq<Event>, i: nat)
    requires IsRun(states, events) && i < |states|
    ensures Sound(states[i])
  {
    AlwaysCleanupOk(states, events, i);
    if i > 0 {
      AlwaysSound(states, events, i - 1);
      StepKeepsHistory(states[i - 1], events[i - 1]);
      StepKeepsAll(states[i - 1], events[i - 1]);
    }
  }

  lemma StepKeepsAll(s: State, e: Event)
    requires Sound(s) && Can(s, e)
    ensures CompleteOk(After(s, e))
  {
    forall r | r in After(s, e).producers && r in After(s, e).runs && Intact(After(s, e), r)
      ensures Kept(After(s, e), r)
    {
      StepKeepsOne(s, e, r);
    }
  }

  // ---- completeness ----

  /** All a consumer may expect of a finished run: every object with its bytes, all content, its URI. */
  predicate Complete(s: State, r: string)
    requires r in s.producers && r in s.runs
  {
    var p, info := s.producers[r], s.runs[r];
    (forall x :: x in PlanOf(r, p) ==> x.key in s.objects && s.objects[x.key].data == x.data) &&
    (forall k :: k in p.content ==> k in info.logged && info.logged[k] == p.content[k]) &&
    info.ArtifactsUri() == Some(OwnUri(s, r, p))
  }

  /** The cleanup of the run's own `log` has deleted one of its objects. */
  predicate Cleared(s: State, r: string)
    requires r in s.producers
  {
    exists x :: x in PlanOf(r, s.producers[r]) && x.key in s.cleared
  }

  /** A hold has written its marker over an artifact of the same name. */
  predicate Overwritten(s: State, r: string)
    requires r in s.producers
  {
    r in s.held &&
    exists x :: x in PlanOf(r, s.producers[r]) && x.key == Marker(r, s.producers[r]) && x.data != []
  }

  /**
   * Completeness: in every reachable state, a logged run that `resolve` would return and no purge of
   * which has begun has its URI, all its content and all its objects with their bytes, exactly when
   * neither its own cleanup has cleared an object nor a hold has overwritten one. Only a cleanup behind
   * an ambiguous finishing call clears anything of such a run.
   */
  lemma FinishedMeansComplete(states: seq<State>, events: seq<Event>, i: nat, r: string)
    requires IsRun(states, events) && i < |states|
    requires r in states[i].producers && r in states[i].runs && states[i].runs[r].Usable()
    requires r !in states[i].purgeBegun
    ensures Complete(states[i], r) <==> !Cleared(states[i], r) && !Overwritten(states[i], r)
    ensures Cleared(states[i], r) ==> r in states[i].ambiguous
  {
    AlwaysSound(states, events, i);
    var s, p := states[i], states[i].producers[r];
    assert StatusFits(p.phase, s.runs[r].status, r in s.ambiguous);
    assert Intact(s, r) && Kept(s, r);
    CompleteWhen(s, r);
    if Cleared(s, r) {
      var x :| x in PlanOf(r, p) && x.key in s.cleared;
      ClearedIsPastListing(s, r, x);
    }
  }

  lemma ClearedIsPastListing(s: State, r: string, x: Upload.Planned)
    requires Keyed(s) && HistoryOk(s) && r in s.producers && x in PlanOf(r, s.producers[r]) && x.key in s.cleared
    ensures PastListing(s.producers[r].phase)
  {
    var i :| 0 <= i < |PlanOf(r, s.producers[r])| && PlanOf(r, s.producers[r])[i] == x;
    assert ProducerKeyed(s, r) && OfACleanup(s, x.key);
    PlannedKeysAreOwn(r, s.producers[r], i);
  }

  lemma CompleteWhen(s: State, r: string)
    requires r in s.producers && r in s.runs && Kept(s, r)
    requires s.producers[r].phase.Returned? || (r in s.ambiguous && !InBody(s.producers[r].phase))
    ensures Complete(s, r) <==> !Cleared(s, r) && !Overwritten(s, r)
  {
    var p := s.producers[r];
    forall x | x in PlanOf(r, p)
      ensures InPlace(s, x, Marker(r, p), r in s.held)
    {
      var i :| 0 <= i < |PlanOf(r, p)| && PlanOf(r, p)[i] == x;
    }
    assert LoggedKeys(p, r in s.ambiguous) == p.content.Keys;
  }
}
