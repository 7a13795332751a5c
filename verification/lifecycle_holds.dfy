/** What a hold is worth: exactly when it can be lost, and runs of the system in which it is. */
module LifecycleHolds {
  import opened Wrappers
  import opened Text
  import opened Layout
  import opened Ids
  import opened Tracking
  import opened S3
  import opened Sweep
  import opened SweepReach
  import opened Lifecycle
  import opened LifecycleKeys
  import opened LifecycleSafety
  import opened LifecycleFrames
  import opened LifecycleRetention
  import opened LifecycleProgress
  import opened LifecycleSweep
  import opened LifecycleComplete
  import SweepEffects
  import Upload

  // ---- what can be lost ----

  ghost predicate Loses(s: State, r: string, k: string) {
    exists states: seq<State>, events: seq<Event> ::
      Unpurged(states, events, s, r) && k !in states[|events|].objects
  }

  /** Some path on which no purge of the run begins loses an object of the prefix. */
  ghost predicate Losable(s: State, alias: string, r: string) {
    exists k :: k in Under(s.objects, RunPrefix(alias, r)) && Loses(s, r, k)
  }

  lemma ProtectedIsNotLosable(s: State, alias: string, r: string)
    requires Safe(s) && CleanupOk(s) && Protected(s, alias, r)
    ensures !Losable(s, alias, r)
  {
    if Losable(s, alias, r) {
      var k :| k in Under(s.objects, RunPrefix(alias, r)) && Loses(s, r, k);
      var states: seq<State>, events: seq<Event> :|
        Unpurged(states, events, s, r) && k !in states[|events|].objects;
      PathLength(states, events, s, r);
      PathsKeepGuard(states, events, s, alias, r, |events|);
    }
  }

  // ---- paths that lose it ----

  lemma GoneIsLost(s: State, r: string, k: string)
    requires k !in s.objects
    ensures Loses(s, r, k)
  {
    var none: seq<Event> := [];
    assert Unpurged([s], none, s, r) && [s][|none|] == s;
  }

  lemma PathLoses(states: seq<State>, events: seq<Event>, s: State, r: string, k: string)
    requires Unpurged(states, events, s, r) && |states| == |events| + 1 && k !in states[|events|].objects
    ensures Loses(s, r, k)
  {
  }

  lemma StepLoses(s: State, e: Event, r: string, k: string)
    requires Can(s, e) && e != ByClient(r, PurgeBegin) && Loses(After(s, e), r, k)
    ensures Loses(s, r, k)
  {
    var t := After(s, e);
    var states: seq<State>, events: seq<Event> :| Unpurged(states, events, t, r) && k !in states[|events|].objects;
    PathLength(states, events, t, r);
    PathFromHere(states, events, s, e, t, r);
    PathLoses([s] + states, [e] + events, s, r, k);
  }

  lemma PathFromHere(states: seq<State>, events: seq<Event>, s: State, e: Event, t: State, r: string)
    requires Can(s, e) && t == After(s, e) && e != ByClient(r, PurgeBegin) && Unpurged(states, events, t, r)
    requires |states| == |events| + 1
    ensures Unpurged([s] + states, [e] + events, s, r)
    ensures ([s] + states)[|[e] + events|] == states[|events|]
  {
    var ss, es := [s] + states, [e] + events;
    forall i | 0 <= i < |es|
      ensures Can(ss[i], es[i]) && ss[i + 1] == After(ss[i], es[i])
    {
      if i > 0 {
        PathAt(states, events, t, r, i - 1);
      }
    }
  }

  lemma SweepLoses(s: State, step: JanitorStep, r: string, k: string)
    requires CanSweep(s, step) && Loses(AfterSweep(s, step), r, k)
    ensures Loses(s, r, k)
  {
    StepLoses(s, ByJanitor(step), r, k);
  }

  lemma TimeLoses(s: State, seconds: Time, r: string, k: string)
    requires seconds >= 0.0 && Loses(s.(clock := s.clock + seconds), r, k)
    ensures Loses(s, r, k)
  {
    StepLoses(s, Tick(seconds), r, k);
  }

  lemma RetiringLoses(s: State, r: string, k: string)
    requires r in s.runs && Loses(Retired(s, r), r, k)
    ensures Loses(s, r, k)
  {
    StepLoses(s, ByClient(r, SoftDelete), r, k);
  }

  function Retired(s: State, r: string): State
    requires r in s.runs
  {
    s.(runs := s.runs[r := s.runs[r].(deleted := true)])
  }

  /** Deleting is all it takes. */
  lemma DeletedIsLost(s: State, e: Event, r: string, k: string)
    requires Can(s, e) && e != ByClient(r, PurgeBegin) && k !in After(s, e).objects
    ensures Loses(s, r, k)
  {
    GoneIsLost(After(s, e), r, k);
    StepLoses(s, e, r, k);
  }

  // ---- a purge that has begun, and the run's own `log` ----

  /** The state after a hold: the run is known, its URI is recorded, its marker is stored. */
  predicate IsHeld(s: State, alias: string, r: string) {
    IsMarked(s, alias, r) && s.runs[r].ArtifactsUri() == Some(ArtifactsUri(s.bucket, alias, r))
  }

  lemma PurgeLoses(s: State, alias: string, r: string)
    requires Keyed(s) && IsHeld(s, alias, r) && r in s.purgeBegun
    ensures Loses(s, r, ScanMarker(RunPrefix(alias, r)))
  {
    var marker := ScanMarker(RunPrefix(alias, r));
    RunUriReaches(s.bucket, alias, r);
    PurgeDeleteLoses(s, r, marker);
  }

  lemma PurgeDeleteLoses(s: State, r: string, k: string)
    requires r in s.runs && r in s.purgeBegun && s.runs[r].ArtifactsUri().Some?
    requires k in Under(s.objects, Janitor.Reach(s.bucket, s.runs[r].ArtifactsUri().value))
    ensures Loses(s, r, k)
  {
    DeletedIsLost(s, ByClient(r, PurgeDelete({k})), r, k);
  }

  lemma ListedForCleanupLoses(s: State, r: string, k: string)
    requires r in s.producers && r in s.runs && s.producers[r].phase.Deleting? && k in s.producers[r].phase.pending
    ensures Loses(s, r, k)
  {
    DeletedIsLost(s, ByProducer(r, CleanupDelete({k})), r, k);
  }

  lemma CleaningLoses(s: State, alias: string, r: string)
    requires Keyed(s) && IsHeld(s, alias, r) && r in s.producers && s.producers[r].phase.Cleaning?
    ensures Loses(s, r, ScanMarker(RunPrefix(alias, r)))
  {
    var marker := ScanMarker(RunPrefix(alias, r));
    assert ProducerKeyed(s, r);
    MarkerIsOwn(alias, r);
    CleanupListsItsOwn(s, r);
    ListedForCleanupLoses(AfterLog(s, r, CleanupList), r, marker);
    StepLoses(s, ByProducer(r, CleanupList), r, marker);
  }

  lemma FinishingLoses(s: State, alias: string, r: string)
    requires Keyed(s) && IsHeld(s, alias, r) && r in s.producers && s.producers[r].phase.Finishing?
    ensures Loses(s, r, ScanMarker(RunPrefix(alias, r)))
  {
    var t := AfterLog(s, r, Fail);
    AtStaysKeyed(s, r, Cleaning);
    assert t == At(s, r, Cleaning);
    CleaningLoses(t, alias, r);
    StepLoses(s, ByProducer(r, Fail), r, ScanMarker(RunPrefix(alias, r)));
  }

  lemma UnsettledIsLosable(s: State, alias: string, r: string)
    requires Keyed(s) && HistoryOk(s) && IsHeld(s, alias, r) && !Settled(s, alias, r)
    ensures Losable(s, alias, r)
  {
    var p, marker := RunPrefix(alias, r), ScanMarker(RunPrefix(alias, r));
    MarkerIsOwn(alias, r);
    assert marker in Under(s.objects, p);
    assert NotYetHeld(s, r);
    match s.producers[r].phase {
      case Finishing => FinishingLoses(s, alias, r);
      case Cleaning => CleaningLoses(s, alias, r);
      case Deleting(pending) =>
        var k :| k in pending && p <= k && k in s.objects;
        assert k in Under(s.objects, p);
        ListedForCleanupLoses(s, r, k);
      case _ =>
    }
  }

  // ---- a prefix on the janitor's list ----

  predicate AllHome(ps: seq<string>) { forall p :: p in ps ==> StaysHome(p) }

  lemma BatchLoses(s: State, r: string, k: string)
    requires s.janitor.Emptying? && k in s.janitor.pending
    ensures Loses(s, r, k)
  {
    DeletedIsLost(s, ByJanitor(DeleteBatch({k})), r, k);
  }

  lemma NextLoses(s: State, r: string, k: string)
    requires LegalBucket(s.bucket) && CanSweep(s, ListOrphan)
    requires TargetOfHome(s.janitor.todo[0]) <= k && k in s.objects
    ensures Loses(s, r, k)
  {
    ListingTakesItsOwn(s);
    assert k in Under(s.objects, TargetOfHome(s.janitor.todo[0]));
    BatchLoses(AfterSweep(s, ListOrphan), r, k);
    SweepLoses(s, ListOrphan, r, k);
  }

  lemma Behind(own: seq<string>, todo: seq<string>, q: string)
    requires own != [] && own <= todo && AllHome(own) && q in own
    ensures StaysHome(todo[0]) && own[1..] <= todo[1..] && AllHome(own[1..]) && (q == todo[0] || q in own[1..])
  {
    assert own == [own[0]] + own[1..] && own[0] in own && own[0] == todo[0];
    assert forall x :: x in own[1..] ==> x in own;
  }

  /** The janitor comes to `q`, which is on the list among prefixes `own` that stay home, and empties it. */
  lemma {:induction false} ListedLoses(s: State, own: seq<string>, q: string, r: string, k: string)
    requires LegalBucket(s.bucket) && s.janitor.Purging? && own <= s.janitor.todo && AllHome(own)
    requires q in own && TargetOfHome(q) <= k
    ensures Loses(s, r, k)
    decreases |own|, 1
  {
    Behind(own, s.janitor.todo, q);
    if k !in s.objects {
      GoneIsLost(s, r, k);
    } else if q == s.janitor.todo[0] {
      NextLoses(s, r, k);
    } else {
      ListingTakesItsOwn(s);
      EmptyingLoses(AfterSweep(s, ListOrphan), own[1..], q, r, k);
      SweepLoses(s, ListOrphan, r, k);
    }
  }

  /** The same once the batch at hand is done. */
  lemma {:induction false} EmptyingLoses(s: State, own: seq<string>, q: string, r: string, k: string)
    requires LegalBucket(s.bucket) && s.janitor.Emptying? && own <= s.janitor.todo && AllHome(own)
    requires q in own && TargetOfHome(q) <= k
    ensures Loses(s, r, k)
    decreases |own|, 2
  {
    var batch := DeleteBatch(s.janitor.pending);
    var t := AfterSweep(s, batch);
    assert t.janitor.pending == {};
    ListedLoses(AfterSweep(t, NextOrphan), own, q, r, k);
    SweepLoses(t, NextOrphan, r, k);
    SweepLoses(s, batch, r, k);
  }

  lemma DecidedLoses(s: State, own: seq<string>, q: string, r: string, k: string)
    requires LegalBucket(s.bucket) && s.janitor.Sweeping? && s.janitor.todo == []
    requires !BreakerTrips(s.config, s.janitor.tally) && own <= s.janitor.tally.orphans && AllHome(own)
    requires q in own && TargetOfHome(q) <= k
    ensures Loses(s, r, k)
  {
    ListedLoses(AfterSweep(s, Decide), own, q, r, k);
    SweepLoses(s, Decide, r, k);
  }

  // ---- a sweep that is still scanning, with a breaker that cannot trip ----

  /** Every orphan, and the prefix being judged, has been scanned and not skipped. */
  predicate TallyOk(j: JanitorPhase) {
    match j
    case Sweeping(tally, _) => |tally.orphans| + tally.skipped <= tally.scanned
    case Judging(tally, _, _, _) => |tally.orphans| + tally.skipped + 1 <= tally.scanned
    case _ => true
  }

  lemma SweepKeepsTally(s: State, step: JanitorStep)
    requires CanSweep(s, step) && TallyOk(s.janitor)
    ensures TallyOk(AfterSweep(s, step).janitor)
  {
  }

  lemma StepKeepsTally(s: State, e: Event)
    requires Can(s, e) && TallyOk(s.janitor)
    ensures TallyOk(After(s, e).janitor)
  {
    if e.ByJanitor? { SweepKeepsTally(s, e.sweep); } else { OnlyTheJanitorMoves(s, e); }
  }

  lemma {:induction false} AlwaysTallyOk(states: seq<State>, events: seq<Event>, i: nat)
    requires IsRun(states, events) && i < |states|
    ensures TallyOk(states[i].janitor)
  {
    if i > 0 {
      AlwaysTallyOk(states, events, i - 1);
      StepOfARun(states, events, i - 1);
      StepKeepsTally(states[i - 1], events[i - 1]);
    }
  }

  lemma FullFractionNeverTrips(config: Config, tally: Tally)
    requires config.maxFraction >= 1.0 && |tally.orphans| + tally.skipped <= tally.scanned
    ensures !BreakerTrips(config, tally)
  {
    FractionFacts(config.maxFraction, |tally.orphans|, tally.scanned - tally.skipped);
  }

  /** What an authoritative server says. */
  function Answer(s: State, id: string): Reply {
    if id in s.runs then Found(s.runs[id]) else SweepEffects.ABSENT
  }

  lemma JudgedByAnswer(s: State)
    requires s.janitor.Judging?
    ensures var reply := Answer(s, RunIdOf(s.janitor.prefix));
            CanSweep(s, Judge(reply)) &&
            var t := AfterSweep(s, Judge(reply));
            t == s.(janitor := t.janitor) && t.janitor.Sweeping? && t.janitor.todo == s.janitor.todo &&
            s.janitor.tally.orphans <= t.janitor.tally.orphans
  {
  }

  lemma ScannedOne(s: State)
    requires CanSweep(s, Scan)
    ensures var t := AfterSweep(s, Scan);
            t == s.(janitor := t.janitor) && (t.janitor.Sweeping? || t.janitor.Judging?) &&
            t.janitor.todo == s.janitor.todo[1..] && t.janitor.tally.orphans == s.janitor.tally.orphans
  {
  }

  lemma {:induction false} ScanningLoses(s: State, own: seq<string>, q: string, r: string, k: string)
    requires LegalBucket(s.bucket) && s.janitor.Sweeping? && s.config.maxFraction >= 1.0 && TallyOk(s.janitor)
    requires own <= s.janitor.tally.orphans && AllHome(own) && q in own && TargetOfHome(q) <= k
    ensures Loses(s, r, k)
    decreases if s.janitor.Sweeping? then |s.janitor.todo| else 0, 1
  {
    if s.janitor.todo == [] {
      FullFractionNeverTrips(s.config, s.janitor.tally);
      DecidedLoses(s, own, q, r, k);
    } else {
      var t := AfterSweep(s, Scan);
      ScannedOne(s);
      SweepKeepsTally(s, Scan);
      if t.janitor.Sweeping? {
        ScanningLoses(t, own, q, r, k);
      } else {
        JudgingLoses(t, own, q, r, k);
      }
      SweepLoses(s, Scan, r, k);
    }
  }

  lemma {:induction false} JudgingLoses(s: State, own: seq<string>, q: string, r: string, k: string)
    requires LegalBucket(s.bucket) && s.janitor.Judging? && s.config.maxFraction >= 1.0 && TallyOk(s.janitor)
    requires own <= s.janitor.tally.orphans && AllHome(own) && q in own && TargetOfHome(q) <= k
    ensures Loses(s, r, k)
    decreases if s.janitor.Judging? then |s.janitor.todo| else 0, 2
  {
    var reply := Answer(s, RunIdOf(s.janitor.prefix));
    JudgedByAnswer(s);
    SweepKeepsTally(s, Judge(reply));
    ScanningLoses(AfterSweep(s, Judge(reply)), own, q, r, k);
    SweepLoses(s, Judge(reply), r, k);
  }

  /** A prefix judged unmarked becomes an orphan once its run is soft-deleted. */
  lemma JudgedUnmarkedLoses(s: State, r: string, k: string)
    requires LegalBucket(s.bucket) && s.janitor.Judging? && s.config.maxFraction >= 1.0 && TallyOk(s.janitor)
    requires AllHome(s.janitor.tally.orphans) && StaysHome(s.janitor.prefix) && !s.janitor.marked
    requires r in s.runs && RunIdOf(s.janitor.prefix) == r && TargetOfHome(s.janitor.prefix) <= k
    ensures Loses(s, r, k)
  {
    var q := s.janitor.prefix;
    var own := s.janitor.tally.orphans + [q];
    var t := Retired(s, r);
    var reply := Found(t.runs[r]);
    SweepKeepsTally(t, Judge(reply));
    assert AfterSweep(t, Judge(reply)).janitor == Sweeping(s.janitor.tally.(orphans := own), s.janitor.todo);
    ScanningLoses(AfterSweep(t, Judge(reply)), own, q, r, k);
    SweepLoses(t, Judge(reply), r, k);
    RetiringLoses(s, r, k);
  }

  // ---- the state, and what the janitor is about ----

  /** The list of what the janitor will purge is final, or nothing can stop it from being purged. */
  predicate Unstoppable(s: State) {
    s.config.maxFraction >= 1.0 || (!s.janitor.Judging? && (s.janitor.Sweeping? ==> s.janitor.todo == []))
  }

  lemma KinReaches(alias: string, r: string, q: string)
    requires SafeName(alias) && RunId(r) && Kin(alias, r, q) && Listed(q) == Some(q)
    ensures StaysHome(q) && TargetOfHome(q) <= ScanMarker(RunPrefix(alias, r)) && RunIdOf(q) == r
  {
    KinStaysHome(alias, r, q);
    MarkerIsOwn(alias, r);
    MarkerUnder(q);
  }

  lemma ScannedKinIsLosable(s: State, alias: string, r: string, q: string)
    requires LegalBucket(s.bucket) && IsMarked(s, alias, r) && s.janitor.Sweeping? && TallyOk(s.janitor)
    requires Unstoppable(s) && AllHome(s.janitor.tally.orphans) && q in s.janitor.tally.orphans && Kin(alias, r, q)
    requires s.janitor.todo == [] ==> !BreakerTrips(s.config, s.janitor.tally)
    ensures Loses(s, r, ScanMarker(RunPrefix(alias, r)))
  {
    KinReaches(alias, r, q);
    if s.janitor.todo == [] {
      DecidedLoses(s, s.janitor.tally.orphans, q, r, ScanMarker(RunPrefix(alias, r)));
    } else {
      ScanningLoses(s, s.janitor.tally.orphans, q, r, ScanMarker(RunPrefix(alias, r)));
    }
  }

  lemma JudgedKinIsLosable(s: State, alias: string, r: string)
    requires Safe(s) && IsMarked(s, alias, r) && s.janitor.Judging? && TallyOk(s.janitor)
    requires Unstoppable(s) && AllHome(s.janitor.tally.orphans) && !NotCondemned(s, alias, r)
    ensures Loses(s, r, ScanMarker(RunPrefix(alias, r)))
  {
    var marker := ScanMarker(RunPrefix(alias, r));
    if !NoKin(s.janitor.tally.orphans, alias, r) {
      var q :| q in s.janitor.tally.orphans && Kin(alias, r, q);
      KinReaches(alias, r, q);
      JudgingLoses(s, s.janitor.tally.orphans, q, r, marker);
    } else {
      assert s.janitor.prefix in StillToJudge(s.janitor);
      KinReaches(alias, r, s.janitor.prefix);
      JudgedUnmarkedLoses(s, r, marker);
    }
  }

  lemma PurgingKinIsLosable(s: State, alias: string, r: string, q: string)
    requires LegalBucket(s.bucket) && IsMarked(s, alias, r) && Kin(alias, r, q)
    requires s.janitor.Purging? || s.janitor.Emptying?
    requires AllHome(s.janitor.todo) && q in s.janitor.todo
    ensures Loses(s, r, ScanMarker(RunPrefix(alias, r)))
  {
    var marker := ScanMarker(RunPrefix(alias, r));
    KinReaches(alias, r, q);
    if s.janitor.Purging? {
      ListedLoses(s, s.janitor.todo, q, r, marker);
    } else {
      EmptyingLoses(s, s.janitor.todo, q, r, marker);
    }
  }

  lemma CondemnedIsLosable(s: State, alias: string, r: string)
    requires Safe(s) && IsMarked(s, alias, r) && TallyOk(s.janitor) && Unstoppable(s)
    requires AllHome(Committed(s.janitor)) && !NotCondemned(s, alias, r)
    ensures Losable(s, alias, r)
  {
    var p, marker := RunPrefix(alias, r), ScanMarker(RunPrefix(alias, r));
    MarkerIsOwn(alias, r);
    assert marker in Under(s.objects, p);
    match s.janitor {
      case Sweeping(tally, _) =>
        var q :| q in tally.orphans && Kin(alias, r, q);
        ScannedKinIsLosable(s, alias, r, q);
      case Judging(_, _, _, _) => JudgedKinIsLosable(s, alias, r);
      case Purging(todo) =>
        var q :| q in todo && Kin(alias, r, q);
        PurgingKinIsLosable(s, alias, r, q);
      case Emptying(first, pending, todo) =>
        assert forall q :: q in todo ==> q in [first] + todo;
        if !NoKin(todo, alias, r) {
          var q :| q in todo && Kin(alias, r, q);
          PurgingKinIsLosable(s, alias, r, q);
        } else {
          var k :| k in pending && p <= k && k in s.objects;
          assert k in Under(s.objects, p);
          BatchLoses(s, r, k);
        }
      case _ =>
    }
  }

  // ---- a stray object of another name ----

  /** A time after which nothing in the bucket is recent. */
  lemma {:induction false} OldEnough(objects: Objects, keys: set<string>, clock: Time, minAge: Time)
    returns (seconds: Time)
    requires keys <= objects.Keys
    ensures seconds >= 0.0
    ensures forall k :: k in keys && objects[k].mtime.Some? ==> clock + seconds - objects[k].mtime.value >= minAge
    decreases keys
  {
    seconds := 0.0;
    if keys != {} {
      var k :| k in keys;
      var others := OldEnough(objects, keys - {k}, clock, minAge);
      var own := if objects[k].mtime.Some? then minAge + objects[k].mtime.value - clock else 0.0;
      seconds := if own > others then own else others;
    }
  }

  /** A kindred prefix that holds an object and no marker. */
  ghost predicate Stray(s: State, alias: string, r: string, q: string) {
    Listed(q) == Some(q) && Kin(alias, r, q) && Under(s.objects, q) != {} && ScanMarker(q) !in s.objects
  }

  lemma UnmarkedIsStray(s: State, alias: string, r: string) returns (q: string)
    requires SafeName(alias) && RunId(r) && !AllMarked(s, alias, r)
    ensures Stray(s, alias, r, q)
  {
    var k :| k in s.objects && Kin(alias, r, k) && Listed(k).Some? && ScanMarker(Listed(k).value) !in s.objects;
    q := Listed(k).value;
    KinOfKey(alias, r, k);
    assert k in Under(s.objects, q);
  }

  lemma JudgedStrayLoses(s: State, q: string, r: string, k: string)
    requires LegalBucket(s.bucket) && StaysHome(q) && TargetOfHome(q) <= k
    ensures Loses(Judged(s, q), r, k)
  {
    DecidedLoses(Judged(s, q), [q], q, r, k);
  }

  /** One sweep from an idle janitor on, when the run is retired and nothing is recent. */
  lemma SweptStrayLoses(s: State, alias: string, r: string, q: string)
    requires LegalBucket(s.bucket) && IsMarked(s, alias, r) && Stray(s, alias, r, q)
    requires s.janitor.Idle? && s.runs[r].deleted && !WrittenLately(SeenAt(s, s.clock), q)
    ensures Loses(s, r, ScanMarker(RunPrefix(alias, r)))
  {
    var marker, canary := ScanMarker(RunPrefix(alias, r)), Canary(SweepEffects.ABSENT);
    KinReaches(alias, r, q);
    SweepUpToTheJudgement(s, q, r);
    JudgedStrayLoses(s, q, r, marker);
    SweepLoses(Scanned(s, q), Judge(Found(s.runs[r])), r, marker);
    SweepLoses(Unscanned(s, q), Scan, r, marker);
    SweepLoses(AfterSweep(s, canary), Enumerate([q]), r, marker);
    SweepLoses(s, canary, r, marker);
  }

  lemma SweepUpToTheJudgement(s: State, q: string, r: string)
    requires s.janitor.Idle? && r in s.runs && s.runs[r].deleted && RunId(r)
    requires Listed(q) == Some(q) && RunIdOf(q) == r && Under(s.objects, q) != {} && ScanMarker(q) !in s.objects
    requires !WrittenLately(SeenAt(s, s.clock), q)
    ensures var canary := Canary(SweepEffects.ABSENT);
            CanSweep(s, canary) && CanSweep(AfterSweep(s, canary), Enumerate([q])) &&
            AfterSweep(AfterSweep(s, canary), Enumerate([q])) == Unscanned(s, q)
    ensures CanSweep(Unscanned(s, q), Scan) && AfterSweep(Unscanned(s, q), Scan) == Scanned(s, q)
    ensures var judge := Judge(Found(s.runs[r]));
            CanSweep(Scanned(s, q), judge) && AfterSweep(Scanned(s, q), judge) == Judged(s, q)
  {
    StartsASweep(s, q);
    SameClockSameDates(s, Unscanned(s, q), q);
    ScansOne(Unscanned(s, q), q, s.clock);
    JudgesOne(Tally(s.clock, 1, 0, []), q, Found(s.runs[r]));
  }

  lemma RetiredIsMarked(s: State, alias: string, r: string, q: string, seconds: Time)
    requires IsMarked(s, alias, r) && Stray(s, alias, r, q)
    requires seconds >= 0.0
    requires forall k :: k in s.objects && s.objects[k].mtime.Some? ==>
               s.clock + seconds - s.objects[k].mtime.value >= s.config.minAge
    ensures var t := Retired(s, r).(clock := s.clock + seconds, janitor := Idle);
            IsMarked(t, alias, r) && Stray(t, alias, r, q) && t.runs[r].deleted &&
            !WrittenLately(SeenAt(t, t.clock), q)
  {
    var t := Retired(s, r).(clock := s.clock + seconds, janitor := Idle);
    assert Under(t.objects, q) == Under(s.objects, q);
  }

  lemma LaterLoses(s: State, r: string, seconds: Time, k: string)
    requires r in s.runs && seconds >= 0.0 && Loses(Retired(s, r).(clock := s.clock + seconds, janitor := Idle), r, k)
    ensures Loses(s, r, k)
  {
    var idle := s.(janitor := Idle);
    var retired := Retired(idle, r);
    assert retired.(clock := s.clock + seconds) == Retired(s, r).(clock := s.clock + seconds, janitor := Idle);
    TimeLoses(retired, seconds, r, k);
    RetiringLoses(idle, r, k);
    SweepLoses(s, Stop, r, k);
  }

  /** The run is soft-deleted, time passes, and the next sweep purges the stray object through the prefix. */
  lemma StrayLoses(s: State, alias: string, r: string, q: string)
    requires LegalBucket(s.bucket) && IsMarked(s, alias, r) && Stray(s, alias, r, q)
    ensures Loses(s, r, ScanMarker(RunPrefix(alias, r)))
  {
    var seconds := OldEnough(s.objects, s.objects.Keys, s.clock, s.config.minAge);
    RetiredIsMarked(s, alias, r, q, seconds);
    SweptStrayLoses(Retired(s, r).(clock := s.clock + seconds, janitor := Idle), alias, r, q);
    LaterLoses(s, r, seconds, ScanMarker(RunPrefix(alias, r)));
  }

  // ---- the exact condition ----

  /**
   * Exactly when a hold can be lost: some path on which no purge of the run begins loses an object of a
   * held prefix if and only if the prefix is not protected. That is, a purge has begun; the run's own
   * `log` can still delete a stored object; the janitor is going to delete something of the prefix, by
   * its own name or another one; or an unmarked object is stored under a prefix of another name that is
   * purged through this one. In a sweep that is still scanning this asks for a breaker that cannot trip.
   */
  lemma LosableIffUnprotected(s: State, alias: string, r: string)
    requires Safe(s) && CleanupOk(s) && HistoryOk(s) && TallyOk(s.janitor) && IsHeld(s, alias, r)
    requires Unstoppable(s) && AllHome(Committed(s.janitor))
    ensures Losable(s, alias, r) <==> !Protected(s, alias, r)
  {
    if Protected(s, alias, r) {
      ProtectedIsNotLosable(s, alias, r);
    } else {
      UnprotectedIsLosable(s, alias, r);
    }
  }

  lemma UnprotectedIsLosable(s: State, alias: string, r: string)
    requires Safe(s) && HistoryOk(s) && TallyOk(s.janitor) && IsHeld(s, alias, r)
    requires Unstoppable(s) && AllHome(Committed(s.janitor)) && !Protected(s, alias, r)
    ensures Losable(s, alias, r)
  {
    MarkerIsOwn(alias, r);
    assert ScanMarker(RunPrefix(alias, r)) in Under(s.objects, RunPrefix(alias, r));
    if r in s.purgeBegun {
      PurgeLoses(s, alias, r);
    } else if !Settled(s, alias, r) {
      UnsettledIsLosable(s, alias, r);
    } else if !AllMarked(s, alias, r) {
      var q := UnmarkedIsStray(s, alias, r);
      StrayLoses(s, alias, r, q);
    } else {
      CondemnedIsLosable(s, alias, r);
    }
  }

  /**
   * What `hold` is worth in a reachable state: a prefix that is protected after it loses nothing on any
   * path on which no purge of the run begins, and unless a breaker may yet stop a sweep that is still
   * scanning, exactly such a prefix.
   */
  lemma HoldProtects(states: seq<State>, events: seq<Event>, i: nat, r: string)
    requires IsRun(states, events) && i < |states| && CanCall(states[i], r, Hold)
    ensures var s, t := states[i], AfterCall(states[i], r, Hold);
            s.runs[r].TagValue(ALIAS_TAG).Some? &&
            var alias := s.runs[r].TagValue(ALIAS_TAG).value;
            IsHeld(t, alias, r) && (Protected(t, alias, r) ==> !Losable(t, alias, r)) &&
            (Unstoppable(s) && AllHome(Committed(s.janitor)) ==>
               (Protected(t, alias, r) <==> !Losable(t, alias, r)))
  {
    var s := states[i];
    AlwaysSound(states, events, i);
    AlwaysTallyOk(states, events, i);
    HoldProtectsNow(s, r);
  }

  lemma HoldProtectsNow(s: State, r: string)
    requires Sound(s) && TallyOk(s.janitor) && CanCall(s, r, Hold)
    ensures var t := AfterCall(s, r, Hold);
            s.runs[r].TagValue(ALIAS_TAG).Some? &&
            var alias := s.runs[r].TagValue(ALIAS_TAG).value;
            IsHeld(t, alias, r) && (Protected(t, alias, r) ==> !Losable(t, alias, r)) &&
            (Unstoppable(s) && AllHome(Committed(s.janitor)) ==>
               (Protected(t, alias, r) <==> !Losable(t, alias, r)))
  {
    HeldNow(s, r);
    HeldStateIsSound(s, r);
    var alias, t := s.runs[r].TagValue(ALIAS_TAG).value, AfterCall(s, r, Hold);
    if Protected(t, alias, r) {
      ProtectedIsNotLosable(t, alias, r);
    }
    if Unstoppable(s) && AllHome(Committed(s.janitor)) {
      LosableIffUnprotected(t, alias, r);
    }
  }

  lemma HeldNow(s: State, r: string)
    requires Keyed(s) && CanCall(s, r, Hold)
    ensures s.runs[r].TagValue(ALIAS_TAG).Some?
    ensures IsHeld(AfterCall(s, r, Hold), s.runs[r].TagValue(ALIAS_TAG).value, r)
  {
    MarkerOfRun(s, r);
    assert OwnsItsUri(s, r);
    HoldWritesTheMarker(s, r);
  }

  lemma HeldStateIsSound(s: State, r: string)
    requires Sound(s) && CanCall(s, r, Hold)
    ensures var t := AfterCall(s, r, Hold);
            Safe(t) && CleanupOk(t) && HistoryOk(t) && t.janitor == s.janitor && t.config == s.config
  {
    StepKeepsSafe(s, ByClient(r, Hold));
    StepKeepsCleanup(s, ByClient(r, Hold));
    StepKeepsHistory(s, ByClient(r, Hold));
  }

  // ---- the residue of an alias with the final newline ----

  /** The residue of an alias with the final newline is purged through the prefix without it. */
  lemma ResidueIsKin(alias: string, r: string)
    requires SafeName(alias) && RunId(r)
    ensures var p := RunPrefix(alias + "\n", r);
            !Tidy(p) && p != RunPrefix(alias, r) && Listed(p) == Some(p) && Kin(alias, r, p)
  {
    var x := alias + "\n";
    var p := RunPrefix(x, r);
    RunKeysAreTidy(alias, r);
    assert p[|alias|] == '\n' && RunPrefix(alias, r)[|alias|] == '/';
    assert p[|alias|] in p;
    SegmentsUnder(x, r, p);
    ListedOfRun(x, r, p);
    NewlineOfAName(alias);
  }

  lemma NewlineOfAName(alias: string)
    requires SafeName(alias)
    ensures Without(alias + "\n", UNSAFE) == alias
  {
    assert forall c :: c in alias ==> c !in UNSAFE;
    NewlineIsDropped(alias, "");
    assert alias + "\n" + "" == alias + "\n" && alias + "" == alias;
  }

  /**
   * From any initial state with a held run and an unmarked stray object under its alias with the final
   * newline: although no purge has begun and no sweep is under way, a run of the system on which no purge
   * of the run begins ends without the marker.
   */
  lemma ResidueTakesTheHold(s: State, alias: string, r: string) returns (states: seq<State>, events: seq<Event>)
    requires Initial(s) && IsHeld(s, alias, r)
    requires Under(s.objects, RunPrefix(alias + "\n", r)) != {}
    requires ScanMarker(RunPrefix(alias + "\n", r)) !in s.objects
    ensures r !in s.purgeBegun && Settled(s, alias, r) && NotCondemned(s, alias, r)
    ensures IsRun(states, events) && states[0] == s && ByClient(r, PurgeBegin) !in events
    ensures ScanMarker(RunPrefix(alias, r)) !in states[|events|].objects
  {
    ResidueIsKin(alias, r);
    StrayLoses(s, alias, r, RunPrefix(alias + "\n", r));
    states, events := LosingRun(s, r, ScanMarker(RunPrefix(alias, r)));
  }

  lemma LosingRun(s: State, r: string, k: string) returns (states: seq<State>, events: seq<Event>)
    requires Initial(s) && Loses(s, r, k)
    ensures IsRun(states, events) && states[0] == s && ByClient(r, PurgeBegin) !in events
    ensures k !in states[|events|].objects
  {
    states, events :| Unpurged(states, events, s, r) && k !in states[|events|].objects;
  }

  // ---- the janitor's list ----

  /** Emptying what the prefix at the head of the janitor's list reaches. */
  lemma EmptyNext(s: State) returns (states: seq<State>, events: seq<Event>, t: State)
    requires LegalBucket(s.bucket) && CanSweep(s, ListOrphan)
    ensures Sweeps(states, events, s, t)
    ensures var p := s.janitor.todo[0];
            t == s.(objects := s.objects - Under(s.objects, TargetOfHome(p)), janitor := Purging(s.janitor.todo[1..]))
  {
    var p, rest := s.janitor.todo[0], s.janitor.todo[1..];
    var own := Under(s.objects, TargetOfHome(p));
    ListingTakesItsOwn(s);
    var a := AfterSweep(s, ListOrphan);
    var b := AfterSweep(a, DeleteBatch(own));
    assert own - own == {};
    assert b == a.(objects := s.objects - own, janitor := Emptying(p, {}, rest));
    t := AfterSweep(b, NextOrphan);
    OneStep(s, ListOrphan);
    OneStep(a, DeleteBatch(own));
    OneStep(b, NextOrphan);
    states, events := Chain(s, a, b, t, ListOrphan, DeleteBatch(own), NextOrphan);
  }

  lemma Chain(s: State, a: State, b: State, t: State, x: JanitorStep, y: JanitorStep, z: JanitorStep)
    returns (states: seq<State>, events: seq<Event>)
    requires Sweeps([s, a], [ByJanitor(x)], s, a) && Sweeps([a, b], [ByJanitor(y)], a, b)
    requires Sweeps([b, t], [ByJanitor(z)], b, t)
    ensures Sweeps(states, events, s, t)
  {
    Join([s, a], [ByJanitor(x)], [a, b], [ByJanitor(y)], s, a, b);
    states, events := [s, a] + [a, b][1..], [ByJanitor(x)] + [ByJanitor(y)];
    Join(states, events, [b, t], [ByJanitor(z)], s, b, t);
    states, events := states + [b, t][1..], events + [ByJanitor(z)];
  }

  /** The janitor, left alone, empties whatever its list reaches, whatever marker has been written since. */
  lemma {:induction false} CondemnedIsEmptied(s: State)
    returns (states: seq<State>, events: seq<Event>, t: State)
    requires LegalBucket(s.bucket) && s.janitor.Purging? && AllHome(s.janitor.todo)
    ensures Sweeps(states, events, s, t) && t.objects.Keys <= s.objects.Keys
    ensures forall p :: p in s.janitor.todo ==> Under(t.objects, TargetOfHome(p)) == {}
    decreases if s.janitor.Purging? then |s.janitor.todo| else 0
  {
    if s.janitor.todo == [] {
      states, events, t := [s], [], s;
    } else {
      var p := s.janitor.todo[0];
      var a, ea, m := EmptyNext(s);
      assert Under(m.objects, TargetOfHome(p)) == {};
      var b, eb;
      b, eb, t := CondemnedIsEmptied(m);
      Join(a, ea, b, eb, s, m, t);
      states, events := a + b[1..], ea + eb;
      StaysEmpty(m.objects, t.objects, TargetOfHome(p));
    }
  }

  /** How far the janitor has come with the list `todo`: listed, under way, or emptied. */
  ghost predicate WorkedOff(s: State, todo: seq<string>)
    requires AllHome(todo)
  {
    (s.janitor.Purging? || s.janitor.Emptying?) &&
    forall p :: p in todo ==>
      p in s.janitor.todo ||
      (s.janitor.Emptying? && p == s.janitor.prefix && Under(s.objects, TargetOfHome(p)) <= s.janitor.pending) ||
      Under(s.objects, TargetOfHome(p)) == {}
  }

  lemma StepWorksOff(s: State, step: JanitorStep, todo: seq<string>)
    requires LegalBucket(s.bucket) && CanSweep(s, step) && !step.Stop? && AllHome(todo) && WorkedOff(s, todo)
    ensures WorkedOff(AfterSweep(s, step), todo)
  {
    var t := AfterSweep(s, step);
    SweepTouchesNoRun(s, step);
    if step.ListOrphan? {
      ListingTakesItsOwn(s);
      assert forall p :: p in s.janitor.todo ==> p == s.janitor.todo[0] || p in s.janitor.todo[1..];
    }
    forall p | p in todo && Under(s.objects, TargetOfHome(p)) == {}
      ensures Under(t.objects, TargetOfHome(p)) == {}
    {
      StaysEmpty(s.objects, t.objects, TargetOfHome(p));
    }
  }

  lemma {:induction false} PathWorksOff(states: seq<State>, events: seq<Event>, s: State, t: State, i: nat)
    requires Sweeps(states, events, s, t) && LegalBucket(s.bucket) && i < |states|
    requires s.janitor.Purging? && AllHome(s.janitor.todo)
    ensures states[i].bucket == s.bucket && WorkedOff(states[i], s.janitor.todo)
  {
    if i > 0 {
      PathWorksOff(states, events, s, t, i - 1);
      assert events[i - 1] in events;
      StepWorksOff(states[i - 1], events[i - 1].sweep, s.janitor.todo);
      SweepTouchesNoRun(states[i - 1], events[i - 1].sweep);
    }
  }

  /**
   * And whichever way it goes about it, in batches of any size and order: once it is through with its
   * list, nothing is left of all that the list reaches.
   */
  lemma EveryPurgeEmpties(states: seq<State>, events: seq<Event>, s: State, t: State)
    requires Sweeps(states, events, s, t) && LegalBucket(s.bucket) && s.janitor.Purging?
    requires AllHome(s.janitor.todo) && t.janitor == Purging([])
    ensures forall p :: p in s.janitor.todo ==> Under(t.objects, TargetOfHome(p)) == {}
  {
    PathWorksOff(states, events, s, t, |events|);
  }

  lemma StaysEmpty(a: Objects, b: Objects, p: string)
    requires b.Keys <= a.Keys && Under(a, p) == {}
    ensures Under(b, p) == {}
  {
    assert forall k :: k in b ==> k in a && k !in Under(a, p);
  }

  // ---- a run of the system in which that happens ----

  /** A settled residue: the soft-deleted run `r` still owns unmarked objects, none of them recent. */
  ghost predicate OldOrphan(s: State, alias: string, r: string) {
    var p := RunPrefix(alias, r);
    SafeName(alias) && r in s.runs && s.runs[r].deleted &&
    s.runs[r].ArtifactsUri() == Some(ArtifactsUri(s.bucket, alias, r)) &&
    Under(s.objects, p) != {} && ScanMarker(p) !in s.objects && !WrittenLately(SeenAt(s, s.clock), p)
  }

  /** The sweep up to the judgement of its only prefix. */
  function Unscanned(s: State, p: string): State { s.(janitor := Sweeping(Tally(s.clock, 0, 0, []), [p])) }

  function Scanned(s: State, p: string): State {
    s.(janitor := Judging(Tally(s.clock, 1, 0, []), p, false, []))
  }

  function Judged(s: State, p: string): State { s.(janitor := Sweeping(Tally(s.clock, 1, 0, [p]), [])) }

  lemma SameClockSameDates(s: State, u: State, p: string)
    requires u == s.(janitor := u.janitor)
    ensures WrittenLately(SeenAt(u, s.clock), p) ==> WrittenLately(SeenAt(s, s.clock), p)
  {
    if WrittenLately(SeenAt(u, s.clock), p) {
      var k :| k in Under(u.objects, p) && u.objects[k].mtime.Some? &&
               s.clock - u.objects[k].mtime.value < s.config.minAge;
      assert k in Under(SeenAt(s, s.clock).objects, p);
    }
  }

  lemma ScanFindsNoMarker(s: State, alias: string, r: string)
    requires RunId(r) && OldOrphan(s, alias, r)
    ensures var p := RunPrefix(alias, r);
            CanSweep(Unscanned(s, p), Scan) && AfterSweep(Unscanned(s, p), Scan) == Scanned(s, p)
  {
    var p := RunPrefix(alias, r);
    MarkerIsOwn(alias, r);
    SameClockSameDates(s, Unscanned(s, p), p);
    ScansOne(Unscanned(s, p), p, s.clock);
  }

  lemma ScansOne(s: State, p: string, now: Time)
    requires s.janitor == Sweeping(Tally(now, 0, 0, []), [p])
    requires Under(s.objects, p) != {} && !WrittenLately(SeenAt(s, now), p) && MatchesRunId(RunIdOf(p))
    requires ScanMarker(p) !in s.objects
    ensures AfterScan(s) == Judging(Tally(now, 1, 0, []), p, false, [])
  {
    assert [p][1..] == [];
  }

  lemma JudgedAnOrphan(s: State, alias: string, r: string)
    requires RunId(r) && OldOrphan(s, alias, r)
    ensures var p, reply := RunPrefix(alias, r), Found(s.runs[r]);
            CanSweep(Scanned(s, p), Judge(reply)) && AfterSweep(Scanned(s, p), Judge(reply)) == Judged(s, p)
  {
    MarkerIsOwn(alias, r);
    JudgesOne(Tally(s.clock, 1, 0, []), RunPrefix(alias, r), Found(s.runs[r]));
  }

  lemma JudgesOne(tally: Tally, p: string, reply: Reply)
    requires Classify(reply) == Orphaned && tally.orphans == []
    ensures AfterJudge(Judging(tally, p, false, []), reply) == Sweeping(tally.(orphans := [p]), [])
  {
    assert [] + [p] == [p];
  }

  lemma StartsASweep(s: State, p: string)
    requires s.janitor.Idle? && Listed(p) == Some(p)
    ensures var canary := Canary(SweepEffects.ABSENT);
            CanSweep(s, canary) && CanSweep(AfterSweep(s, canary), Enumerate([p])) &&
            AfterSweep(AfterSweep(s, canary), Enumerate([p])) == Unscanned(s, p)
  {
  }

  /** The state after a hold of `r` in the middle of a sweep that has judged its prefix. */
  function HeldLate(s: State, p: string, r: string): State {
    s.(objects := s.objects[ScanMarker(p) := Object([], Some(s.clock))],
       held := s.held + {r},
       cleared := s.cleared - {ScanMarker(p)},
       janitor := Sweeping(Tally(s.clock, 1, 0, [p]), []))
  }

  lemma HoldsTooLate(s: State, alias: string, r: string)
    requires WellKeyed(s) && OldOrphan(s, alias, r)
    ensures var p := RunPrefix(alias, r);
            CanCall(Judged(s, p), r, Hold) && AfterCall(Judged(s, p), r, Hold) == HeldLate(s, p, r)
  {
    RunUriReaches(s.bucket, alias, r);
  }

  lemma DecidesToPurge(s: State, alias: string, r: string)
    requires LegalBucket(s.bucket) && SafeName(alias) && RunId(r)
    ensures var p := RunPrefix(alias, r);
            var h := HeldLate(s, p, r);
            CanSweep(h, Decide) && AfterSweep(h, Decide) == h.(janitor := Purging([p])) && Tidy(p)
  {
    RunKeysAreTidy(alias, r);
  }

  lemma UpToTheScan(s: State, alias: string, r: string) returns (states: seq<State>, events: seq<Event>)
    requires Initial(s) && OldOrphan(s, alias, r)
    ensures IsRun(states, events) && states[0] == s && states[|events|] == Scanned(s, RunPrefix(alias, r))
    ensures |events| == 3 && events[2] == ByJanitor(Scan) && forall e :: e in events ==> e.ByJanitor?
  {
    var p := RunPrefix(alias, r);
    MarkerIsOwn(alias, r);
    states, events := UpToTheList(s, p);
    ScanFindsNoMarker(s, alias, r);
    states, events := Step(states, events, ByJanitor(Scan));
  }

  lemma UpToTheJudgement(s: State, alias: string, r: string) returns (states: seq<State>, events: seq<Event>)
    requires Initial(s) && OldOrphan(s, alias, r)
    ensures IsRun(states, events) && states[0] == s && states[|events|] == Judged(s, RunPrefix(alias, r))
    ensures |events| == 4 && events[2] == ByJanitor(Scan) && forall e :: e in events ==> e.ByJanitor?
  {
    states, events := UpToTheScan(s, alias, r);
    JudgedAnOrphan(s, alias, r);
    states, events := Step(states, events, ByJanitor(Judge(Found(s.runs[r]))));
  }

  lemma UpToTheList(s: State, p: string) returns (states: seq<State>, events: seq<Event>)
    requires Initial(s) && Listed(p) == Some(p)
    ensures IsRun(states, events) && states[0] == s && states[|events|] == Unscanned(s, p)
    ensures |events| == 2 && forall e :: e in events ==> e.ByJanitor?
  {
    StartsASweep(s, p);
    assert IsRun([s], []);
    states, events := Step([s], [], ByJanitor(Canary(SweepEffects.ABSENT)));
    states, events := Step(states, events, ByJanitor(Enumerate([p])));
  }

  /** A janitor about to purge one tidy prefix empties it. */
  lemma PurgesTheLast(states0: seq<State>, events0: seq<Event>, p: string)
    returns (states: seq<State>, events: seq<Event>)
    requires IsRun(states0, events0) && LegalBucket(states0[|events0|].bucket) && Tidy(p) && Listed(p) == Some(p)
    requires states0[|events0|].janitor == Purging([p])
    ensures IsRun(states, events) && states0 <= states && events0 <= events
    ensures forall e :: e in events[|events0|..] ==> e.ByJanitor?
    ensures Under(states[|events|].objects, p) == {}
  {
    var h := states0[|events0|];
    TidyStaysHome(p);
    ListingTakesItsOwn(h);
    states, events := Step(states0, events0, ByJanitor(ListOrphan));
    states, events := Step(states, events, ByJanitor(DeleteBatch(Under(h.objects, p))));
  }

  lemma HoldThenDecide(s: State, alias: string, r: string) returns (states: seq<State>, events: seq<Event>)
    requires Initial(s) && OldOrphan(s, alias, r)
    ensures IsRun(states, events) && states[0] == s && |events| == 6
    ensures states[5] == HeldLate(s, RunPrefix(alias, r), r)
    ensures states[6] == states[5].(janitor := Purging([RunPrefix(alias, r)]))
    ensures events[2] == ByJanitor(Scan) && events[4] == ByClient(r, Hold)
    ensures forall i :: 0 <= i < 6 && i != 4 ==> events[i].ByJanitor?
  {
    var states0, events0 := UpToTheJudgement(s, alias, r);
    HoldsTooLate(s, alias, r);
    var states1, events1 := Step(states0, events0, ByClient(r, Hold));
    DecidesToPurge(s, alias, r);
    states, events := Step(states1, events1, ByJanitor(Decide));
    assert forall i :: 0 <= i < 4 ==> events[i] == events0[i] && events0[i] in events0;
  }

  /**
   * From any initial state with an old orphan: the janitor scans it, judges it, the hold is placed, and
   * the janitor goes on to delete the prefix with the marker in it.
   */
  lemma HoldAfterTheScanIsLost(s: State, alias: string, r: string)
    returns (states: seq<State>, events: seq<Event>)
    requires Initial(s) && OldOrphan(s, alias, r)
    ensures IsRun(states, events) && states[0] == s && |events| >= 6
    ensures events[2] == ByJanitor(Scan) && events[4] == ByClient(r, Hold)
    ensures forall i :: 0 <= i < |events| && i != 4 ==> events[i].ByJanitor?
    ensures ScanMarker(RunPrefix(alias, r)) in states[5].objects
    ensures Under(states[|events|].objects, RunPrefix(alias, r)) == {}
  {
    var p := RunPrefix(alias, r);
    var states0, events0 := HoldThenDecide(s, alias, r);
    DecidesToPurge(s, alias, r);
    MarkerIsOwn(alias, r);
    states, events := PurgesTheLast(states0, events0, p);
    assert states[5] == states0[5];
    assert forall i :: 6 <= i < |events| ==> events[i] in events[6..];
  }

  // ---- a hold of a run whose own `log` is not settled ----

  lemma HoldableWhenFinishing(states: seq<State>, events: seq<Event>, r: string)
    requires IsRun(states, events) && r in states[|events|].producers && states[|events|].producers[r].phase.Finishing?
    requires r in states[|events|].runs && Intact(states[|events|], r)
    ensures var s := states[|events|];
            Safe(s) && CanCall(s, r, Hold) && s.runs[r].TagValue(ALIAS_TAG) == Some(s.producers[r].identity.alias)
  {
    AlwaysSound(states, events, |events|);
    var s := states[|events|];
    assert Kept(s, r) && ProducerKeyed(s, r);
    MarkerOfRun(s, r);
  }

  lemma FailsAndCleans(states0: seq<State>, events0: seq<Event>, r: string)
    returns (states: seq<State>, events: seq<Event>, own: set<string>)
    requires IsRun(states0, events0)
    requires var s := states0[|events0|];
             r in s.producers && r in s.runs && s.producers[r].phase.Finishing? && LegalBucket(s.bucket) &&
             SafeName(s.producers[r].identity.alias) && RunId(r)
    ensures IsRun(states, events) && states0 <= states
    ensures events == events0 + [ByProducer(r, Fail), ByProducer(r, CleanupList), ByProducer(r, CleanupDelete(own))]
    ensures states[|events| - 1].objects == states0[|events0|].objects
    ensures Under(states[|events|].objects, Prefix(r, states0[|events0|].producers[r])) == {}
  {
    var s := states0[|events0|];
    own := Under(s.objects, Prefix(r, s.producers[r]));
    var states1, events1 := FailsAndLists(states0, events0, r, own);
    states, events := Step(states1, events1, ByProducer(r, CleanupDelete(own)));
  }

  lemma FailsAndLists(states0: seq<State>, events0: seq<Event>, r: string, own: set<string>)
    returns (states: seq<State>, events: seq<Event>)
    requires IsRun(states0, events0)
    requires var s := states0[|events0|];
             r in s.producers && r in s.runs && s.producers[r].phase.Finishing? && LegalBucket(s.bucket) &&
             SafeName(s.producers[r].identity.alias) && RunId(r) && own == Under(s.objects, Prefix(r, s.producers[r]))
    ensures IsRun(states, events) && states0 <= states
    ensures events == events0 + [ByProducer(r, Fail), ByProducer(r, CleanupList)]
    ensures var s, t := states0[|events0|], states[|events|];
            t.objects == s.objects && CanLog(t, r, CleanupDelete(own)) &&
            AfterLog(t, r, CleanupDelete(own)).objects == s.objects - own
  {
    var s := states0[|events0|];
    var states1, events1 := Step(states0, events0, ByProducer(r, Fail));
    assert states1[|events1|] == At(s, r, Cleaning);
    CleanupListsItsOwn(At(s, r, Cleaning), r);
    states, events := Step(states1, events1, ByProducer(r, CleanupList));
  }

  /**
   * From any initial state and for any call that can be planned: a hold placed before the finishing
   * call goes with the prefix when that call fails.
   */
  lemma HoldBeforeTheCleanupIsLost(s0: State, id: Identity, artifacts: seq<Upload.Artifact>,
                                   content: Content, r: string)
    returns (states: seq<State>, events: seq<Event>, n: nat, own: set<string>)
    requires Initial(s0) && RunId(r) && r !in s0.seen && Upload.Plannable(artifacts)
    requires ValidateIdentity(id).Ok? && SafeName(id.alias) && ValidContent(content)
    ensures IsRun(states, events) && states[0] == s0 && |events| == n + 4
    ensures events[n..] == [ByClient(r, Hold), ByProducer(r, Fail), ByProducer(r, CleanupList),
                            ByProducer(r, CleanupDelete(own))]
    ensures ScanMarker(RunPrefix(id.alias, r)) in states[n + 3].objects
    ensures Under(states[n + 4].objects, RunPrefix(id.alias, r)) == {}
  {
    var states0, events0 := UpToFinishing(s0, id, artifacts, content, r);
    n := |events0|;
    var states1, events1 := HoldsWhileFinishing(states0, events0, r);
    states, events, own := FailsAndCleans(states1, events1, r);
  }

  lemma HoldsWhileFinishing(states0: seq<State>, events0: seq<Event>, r: string)
    returns (states: seq<State>, events: seq<Event>)
    requires IsRun(states0, events0) && r in states0[|events0|].producers && RunId(r)
    requires states0[|events0|].producers[r].phase.Finishing?
    requires r in states0[|events0|].runs && Intact(states0[|events0|], r)
    ensures IsRun(states, events) && states0 <= states && events == events0 + [ByClient(r, Hold)]
    ensures var s, t := states0[|events0|], states[|events|];
            r in t.producers && t.producers[r] == s.producers[r] && r in t.runs && LegalBucket(t.bucket) &&
            ScanMarker(Prefix(r, s.producers[r])) in t.objects
  {
    HoldableWhenFinishing(states0, events0, r);
    HoldWritesTheMarker(states0[|events0|], r);
    states, events := Step(states0, events0, ByClient(r, Hold));
  }
}
