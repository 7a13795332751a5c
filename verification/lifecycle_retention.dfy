/** A hold survives everything but a purge of its own run. */
module LifecycleRetention {
  import opened Wrappers
  import opened Layout
  import opened Ids
  import opened Tracking
  import opened S3
  import opened SweepReach
  import opened Lifecycle
  import opened LifecycleKeys
  import opened LifecycleSafety
  import opened LifecycleFrames
  import opened LifecycleSweep

  /** The `log` call of the run, if this system has seen one, is not going to delete anything of the prefix. */
  predicate Settled(s: State, alias: string, r: string) {
    r in s.producers ==>
      match s.producers[r].phase
      case Returned | Failing(_) | RaisedOut(_, _) | Halted => true
      case Deleting(pending) => forall k :: k in pending && RunPrefix(alias, r) <= k ==> k !in s.objects
      case _ => false
  }

  /** No prefix of the list is purged through the prefix of the run. */
  predicate NoKin(ps: seq<string>, alias: string, r: string) { forall q :: q in ps ==> !Kin(alias, r, q) }

  /** The sweep in progress is not going to delete anything of the prefix, by whatever name. */
  predicate NotCondemned(s: State, alias: string, r: string) {
    match s.janitor
    case Sweeping(tally, todo) => NoKin(tally.orphans, alias, r) || (todo == [] && BreakerTrips(s.config, tally))
    case Judging(tally, q, marked, _) => NoKin(tally.orphans, alias, r) && (Kin(alias, r, q) ==> marked)
    case Purging(todo) => NoKin(todo, alias, r)
    case Emptying(_, pending, todo) =>
      NoKin(todo, alias, r) && forall k :: k in pending && RunPrefix(alias, r) <= k ==> k !in s.objects
    case _ => true
  }

  /** Every prefix that is purged through the prefix of the run carries a marker of its own. */
  ghost predicate AllMarked(s: State, alias: string, r: string) {
    forall k :: k in s.objects && Kin(alias, r, k) && Listed(k).Some? ==> ScanMarker(Listed(k).value) in s.objects
  }

  /** The run is known under the alias, and its prefix carries the marker. */
  predicate IsMarked(s: State, alias: string, r: string) {
    SafeName(alias) && RunId(r) && r in s.runs && s.runs[r].TagValue(ALIAS_TAG) == Some(alias) &&
    ScanMarker(RunPrefix(alias, r)) in s.objects
  }

  /** A marked prefix that nothing under way, and no later sweep, is going to delete. */
  ghost predicate Protected(s: State, alias: string, r: string) {
    IsMarked(s, alias, r) && r !in s.purgeBegun && Settled(s, alias, r) && AllMarked(s, alias, r) &&
    NotCondemned(s, alias, r)
  }

  /** No object under the prefix has gone. */
  ghost predicate NothingLost(s: State, t: State, p: string) {
    Under(s.objects, p) <= Under(t.objects, p)
  }

  lemma MarkerIsOwn(alias: string, r: string)
    requires SafeName(alias) && RunId(r)
    ensures var p := RunPrefix(alias, r);
            SlashFree(alias) && SlashFree(r) && p <= ScanMarker(p) && OwnerId(ScanMarker(p)) == Some(r) &&
            RunIdOf(p) == r && Listed(p) == Some(p)
  {
    RunKeysAreTidy(alias, r);
    RunIdOfPrefix(alias, r);
    OwnerOfRunKey(alias, r, ScanMarker(RunPrefix(alias, r)));
    ListedOfRun(alias, r, RunPrefix(alias, r));
  }

  // ---- the kindred keys ----

  /** The same kindred keys are stored. */
  ghost predicate SameKin(s: State, t: State, alias: string, r: string) {
    forall k :: Kin(alias, r, k) ==> (k in t.objects <==> k in s.objects)
  }

  lemma SameKinKeepsMarks(s: State, t: State, alias: string, r: string)
    requires SafeName(alias) && RunId(r) && SameKin(s, t, alias, r) && AllMarked(s, alias, r)
    ensures AllMarked(t, alias, r)
  {
    forall k | k in t.objects && Kin(alias, r, k) && Listed(k).Some?
      ensures ScanMarker(Listed(k).value) in t.objects
    {
      KinOfKey(alias, r, k);
    }
  }

  lemma SameKinLosesNothing(s: State, t: State, alias: string, r: string)
    requires SafeName(alias) && RunId(r) && SameKin(s, t, alias, r)
    ensures Under(t.objects, RunPrefix(alias, r)) == Under(s.objects, RunPrefix(alias, r))
    ensures ScanMarker(RunPrefix(alias, r)) in s.objects ==> ScanMarker(RunPrefix(alias, r)) in t.objects
  {
    forall k | RunPrefix(alias, r) <= k
      ensures k in t.objects <==> k in s.objects
    {
      OwnKeysAreKin(alias, r, k);
    }
    MarkerIsOwn(alias, r);
  }

  lemma LogsKeepKin(s: State, q: string, step: ProducerStep, alias: string, r: string)
    requires Safe(s) && CleanupOk(s) && CanLog(s, q, step) && Protected(s, alias, r)
    ensures SameKin(s, AfterLog(s, q, step), alias, r)
  {
    if q == r {
      OwnLogLeavesObjects(s, r, step, alias);
    } else {
      forall k | Kin(alias, r, k)
        ensures k in AfterLog(s, q, step).objects <==> k in s.objects
      {
        LogTouchesOwnKeys(s, q, step, k);
      }
    }
  }

  /** A settled call deletes no stored object. */
  lemma OwnLogLeavesObjects(s: State, r: string, step: ProducerStep, alias: string)
    requires Keyed(s) && CleanupOk(s) && CanLog(s, r, step) && Settled(s, alias, r) && r in s.seen
    requires r in s.runs && s.runs[r].TagValue(ALIAS_TAG) == Some(alias)
    ensures forall k :: k in AfterLog(s, r, step).objects <==> k in s.objects
  {
    if step.CleanupDelete? {
      assert ProducerKeyed(s, r) && CleanupFits(s.objects, r, s.producers[r]);
    }
  }

  lemma CallsKeepKin(s: State, q: string, step: ClientStep, alias: string, r: string)
    requires Safe(s) && CanCall(s, q, step) && Protected(s, alias, r)
    ensures SameKin(s, AfterCall(s, q, step), alias, r)
  {
    if q == r {
      OwnCallsKeepKin(s, step, alias, r);
    } else {
      forall k | Kin(alias, r, k)
        ensures k in AfterCall(s, q, step).objects <==> k in s.objects
      {
        CallTouchesOwnKeys(s, q, step, k);
      }
    }
  }

  lemma OwnCallsKeepKin(s: State, step: ClientStep, alias: string, r: string)
    requires Keyed(s) && CanCall(s, r, step) && IsMarked(s, alias, r) && r !in s.purgeBegun
    ensures SameKin(s, AfterCall(s, r, step), alias, r)
  {
    if step.Hold? {
      HoldWritesTheMarker(s, r);
    }
  }

  /** What is being emptied is kindred only if the run's prefix is, and then none of it is stored. */
  lemma SweepsKeepKin(s: State, step: JanitorStep, alias: string, r: string)
    requires Safe(s) && CanSweep(s, step) && Protected(s, alias, r)
    ensures SameKin(s, AfterSweep(s, step), alias, r)
  {
    if step.DeleteBatch? {
      forall k | Kin(alias, r, k)
        ensures k in step.keys ==> k !in s.objects
      {
        if k in step.keys {
          OnlyKinReachesKin(alias, r, s.janitor.prefix, k);
        }
      }
    }
  }

  // ---- the call, the janitor and the index ----

  lemma StillSettled(s: State, t: State, alias: string, r: string)
    requires Settled(s, alias, r) && Under(t.objects, RunPrefix(alias, r)) == Under(s.objects, RunPrefix(alias, r))
    requires r in s.producers && r in t.producers
    requires t.producers[r].phase == s.producers[r].phase || t.producers[r].phase.Failing? ||
             t.producers[r].phase.RaisedOut? ||
             (t.producers[r].phase.Deleting? && s.producers[r].phase.Deleting? &&
              t.producers[r].phase.pending <= s.producers[r].phase.pending)
    ensures Settled(t, alias, r)
  {
    assert forall k :: RunPrefix(alias, r) <= k && k in t.objects ==> k in Under(t.objects, RunPrefix(alias, r));
  }

  lemma OwnLogGoesOn(s: State, r: string, step: ProducerStep, alias: string)
    requires CanLog(s, r, step) && Settled(s, alias, r) && r in s.seen
    ensures var t := AfterLog(s, r, step);
            r in s.producers && r in t.producers &&
            (t.producers[r].phase.Failing? || t.producers[r].phase.RaisedOut? ||
             (t.producers[r].phase.Deleting? && s.producers[r].phase.Deleting? &&
              t.producers[r].phase.pending <= s.producers[r].phase.pending)) &&
            r in s.runs && r in t.runs && t.runs[r].logged == s.runs[r].logged
  {
  }

  /** What a protection rests on beside the objects and the janitor is still there. */
  ghost predicate SameFooting(s: State, t: State, alias: string, r: string) {
    r in t.runs && t.runs[r].TagValue(ALIAS_TAG) == Some(alias) && (r in t.purgeBegun ==> r in s.purgeBegun) &&
    Settled(t, alias, r)
  }

  lemma LogsKeepFooting(s: State, q: string, step: ProducerStep, alias: string, r: string)
    requires Safe(s) && CleanupOk(s) && CanLog(s, q, step) && Protected(s, alias, r)
    ensures var t := AfterLog(s, q, step);
            SameFooting(s, t, alias, r) && t.janitor == s.janitor && t.config == s.config
  {
    var t := AfterLog(s, q, step);
    LogLeavesTheRest(s, q, step);
    LogsKeepKin(s, q, step, alias, r);
    SameKinLosesNothing(s, t, alias, r);
    if q == r {
      OwnLogGoesOn(s, r, step, alias);
      StillSettled(s, t, alias, r);
    } else {
      LogTouchesOneRun(s, q, step, r);
      if r in s.producers { StillSettled(s, t, alias, r); }
    }
  }

  lemma LogLeavesTheRest(s: State, q: string, step: ProducerStep)
    requires CanLog(s, q, step)
    ensures var t := AfterLog(s, q, step);
            t.janitor == s.janitor && t.config == s.config && t.purgeBegun == s.purgeBegun
  {
  }

  lemma CallLeavesTheRest(s: State, q: string, step: ClientStep, alias: string, r: string)
    requires CanCall(s, q, step) && Settled(s, alias, r) && !(q == r && step.PurgeBegin?) && r in s.runs
    ensures var t := AfterCall(s, q, step);
            t.janitor == s.janitor && t.config == s.config && (r in t.purgeBegun ==> r in s.purgeBegun) &&
            (r in t.producers <==> r in s.producers) && (r in s.producers ==> t.producers[r] == s.producers[r]) &&
            r in t.runs && t.runs[r].logged == s.runs[r].logged
  {
  }

  lemma CallsKeepFooting(s: State, q: string, step: ClientStep, alias: string, r: string)
    requires Safe(s) && CanCall(s, q, step) && Protected(s, alias, r) && !(q == r && step.PurgeBegin?)
    ensures var t := AfterCall(s, q, step);
            SameFooting(s, t, alias, r) && t.janitor == s.janitor && t.config == s.config
  {
    var t := AfterCall(s, q, step);
    CallLeavesTheRest(s, q, step, alias, r);
    CallsKeepKin(s, q, step, alias, r);
    SameKinLosesNothing(s, t, alias, r);
    if r in s.producers { StillSettled(s, t, alias, r); }
  }

  lemma StillNotCondemned(s: State, t: State, alias: string, r: string)
    requires NotCondemned(s, alias, r) && t.janitor == s.janitor && t.config == s.config
    requires Under(t.objects, RunPrefix(alias, r)) == Under(s.objects, RunPrefix(alias, r))
    ensures NotCondemned(t, alias, r)
  {
    assert forall k :: RunPrefix(alias, r) <= k && k in t.objects ==> k in Under(t.objects, RunPrefix(alias, r));
  }

  // ---- the janitor's steps ----

  lemma ScanSeesTheMarker(s: State, alias: string, r: string)
    requires Safe(s) && CanSweep(s, Scan) && RunId(r) && AllMarked(s, alias, r) && NotCondemned(s, alias, r)
    ensures NotCondemned(AfterSweep(s, Scan), alias, r)
  {
    var q := s.janitor.todo[0];
    assert q in StillToJudge(s.janitor);
    if Kin(alias, r, q) && Under(s.objects, q) != {} {
      var k :| k in Under(s.objects, q);
      KinUnder(q, k);
      MarkerUnder(q);
      assert ScanMarker(q) in Under(s.objects, q);
    }
  }

  lemma ListingSpares(s: State, alias: string, r: string)
    requires CanSweep(s, ListOrphan) && LegalBucket(s.bucket) && SafeName(alias) && RunId(r)
    requires NotCondemned(s, alias, r)
    ensures NotCondemned(AfterSweep(s, ListOrphan), alias, r)
  {
    var q := s.janitor.todo[0];
    ListingTakesItsOwn(s);
    assert q in s.janitor.todo;
    forall k | k in Under(s.objects, TargetOfHome(q))
      ensures !(RunPrefix(alias, r) <= k)
    {
      if RunPrefix(alias, r) <= k {
        OwnKeysAreKin(alias, r, k);
        OnlyKinReachesKin(alias, r, q, k);
      }
    }
    assert forall x :: x in s.janitor.todo[1..] ==> x in s.janitor.todo;
  }

  lemma JudgingSpares(s: State, reply: Reply, alias: string, r: string)
    requires CanSweep(s, Judge(reply)) && NotCondemned(s, alias, r)
    ensures NotCondemned(AfterSweep(s, Judge(reply)), alias, r)
  {
  }

  lemma OtherStepsSpare(s: State, step: JanitorStep, alias: string, r: string)
    requires CanSweep(s, step) && NotCondemned(s, alias, r)
    requires !step.Scan? && !step.Judge? && !step.ListOrphan?
    ensures NotCondemned(AfterSweep(s, step), alias, r)
  {
  }

  lemma SweepsSpare(s: State, step: JanitorStep, alias: string, r: string)
    requires Safe(s) && CanSweep(s, step) && Protected(s, alias, r)
    ensures NotCondemned(AfterSweep(s, step), alias, r)
  {
    match step {
      case Scan => ScanSeesTheMarker(s, alias, r);
      case Judge(reply) => JudgingSpares(s, reply, alias, r);
      case ListOrphan => ListingSpares(s, alias, r);
      case _ => OtherStepsSpare(s, step, alias, r);
    }
  }

  lemma SweepsKeepFooting(s: State, step: JanitorStep, alias: string, r: string)
    requires Safe(s) && CanSweep(s, step) && Protected(s, alias, r)
    ensures SameFooting(s, AfterSweep(s, step), alias, r)
  {
    var t := AfterSweep(s, step);
    SweepTouchesNoRun(s, step);
    SweepsKeepKin(s, step, alias, r);
    SameKinLosesNothing(s, t, alias, r);
    if r in s.producers { StillSettled(s, t, alias, r); }
  }

  // ---- every step ----

  lemma StepKeepsKin(s: State, e: Event, alias: string, r: string)
    requires Safe(s) && CleanupOk(s) && Can(s, e) && Protected(s, alias, r)
    ensures SameKin(s, After(s, e), alias, r)
  {
    match e {
      case ByProducer(q, step) => LogsKeepKin(s, q, step, alias, r);
      case ByClient(q, step) => CallsKeepKin(s, q, step, alias, r);
      case ByJanitor(step) => SweepsKeepKin(s, step, alias, r);
      case Tick(_) =>
    }
  }

  lemma TimeKeepsFooting(s: State, seconds: Time, alias: string, r: string)
    requires Protected(s, alias, r)
    ensures var t := s.(clock := s.clock + seconds);
            SameFooting(s, t, alias, r) && NotCondemned(t, alias, r)
  {
  }

  lemma StepKeepsFooting(s: State, e: Event, alias: string, r: string)
    requires Safe(s) && CleanupOk(s) && Can(s, e) && Protected(s, alias, r) && e != ByClient(r, PurgeBegin)
    ensures SameFooting(s, After(s, e), alias, r) && NotCondemned(After(s, e), alias, r)
  {
    var t := After(s, e);
    StepKeepsKin(s, e, alias, r);
    SameKinLosesNothing(s, t, alias, r);
    match e {
      case ByProducer(q, step) => LogsKeepFooting(s, q, step, alias, r); StillNotCondemned(s, t, alias, r);
      case ByClient(q, step) => CallsKeepFooting(s, q, step, alias, r); StillNotCondemned(s, t, alias, r);
      case ByJanitor(step) => SweepsKeepFooting(s, step, alias, r); SweepsSpare(s, step, alias, r);
      case Tick(seconds) => TimeKeepsFooting(s, seconds, alias, r);
    }
  }

  /** No step but the start of a purge of the run ends a protection, or removes an object of the prefix. */
  lemma StepKeepsProtection(s: State, e: Event, alias: string, r: string)
    requires Safe(s) && CleanupOk(s) && Can(s, e) && Protected(s, alias, r) && e != ByClient(r, PurgeBegin)
    ensures Protected(After(s, e), alias, r) && NothingLost(s, After(s, e), RunPrefix(alias, r))
  {
    StepKeepsKin(s, e, alias, r);
    StepKeepsFooting(s, e, alias, r);
    SameKinLosesNothing(s, After(s, e), alias, r);
    SameKinKeepsMarks(s, After(s, e), alias, r);
  }

  // ---- whole histories ----

  /** Since `s0` nothing of the prefix is lost, and it is protected still. */
  ghost predicate Guarded(s0: State, s: State, alias: string, r: string) {
    Safe(s) && CleanupOk(s) && Protected(s, alias, r) && NothingLost(s0, s, RunPrefix(alias, r))
  }

  lemma StepKeepsGuard(s0: State, s: State, e: Event, alias: string, r: string)
    requires Guarded(s0, s, alias, r) && Can(s, e) && e != ByClient(r, PurgeBegin)
    ensures Guarded(s0, After(s, e), alias, r)
  {
    StepKeepsSafe(s, e);
    StepKeepsCleanup(s, e);
    StepKeepsProtection(s, e, alias, r);
  }

  /** Steps of the system from `s` on, on which no purge of the run begins. */
  ghost predicate Unpurged(states: seq<State>, events: seq<Event>, s: State, r: string) {
    IsPath(states, events) && states[0] == s && ByClient(r, PurgeBegin) !in events
  }

  lemma PathAt(states: seq<State>, events: seq<Event>, s: State, r: string, i: nat)
    requires Unpurged(states, events, s, r) && i < |events|
    ensures Can(states[i], events[i]) && states[i + 1] == After(states[i], events[i])
    ensures events[i] != ByClient(r, PurgeBegin)
  {
    assert events[i] in events;
  }

  lemma PathLength(states: seq<State>, events: seq<Event>, s: State, r: string)
    requires Unpurged(states, events, s, r)
    ensures |states| == |events| + 1 && states[0] == s
  {
  }

  lemma {:induction false} PathsKeepGuard(states: seq<State>, events: seq<Event>, s: State,
                                          alias: string, r: string, i: nat)
    requires Unpurged(states, events, s, r) && i < |states| && Guarded(s, s, alias, r)
    ensures Guarded(s, states[i], alias, r)
  {
    PathLength(states, events, s, r);
    if i > 0 {
      PathsKeepGuard(states, events, s, alias, r, i - 1);
      PathAt(states, events, s, r, i - 1);
      StepKeepsGuard(s, states[i - 1], events[i - 1], alias, r);
    }
  }

  /**
   * Retention over unbounded histories: from a protected state on, no number of sweeps, clock
   * advances, soft-deletions or steps of other runs removes any object of the prefix, for as long as
   * no purge of the run begins.
   */
  lemma HoldsSurvive(states: seq<State>, events: seq<Event>, i: nat, j: nat, alias: string, r: string)
    requires IsRun(states, events) && i <= j < |states| && Protected(states[i], alias, r)
    requires forall m :: i <= m < j ==> events[m] != ByClient(r, PurgeBegin)
    ensures Protected(states[j], alias, r)
    ensures NothingLost(states[i], states[j], RunPrefix(alias, r))
  {
    PieceIsUnpurged(states, events, i, j, r);
    GuardedNow(states, events, i, alias, r);
    PieceKeeps(states, events, i, j, alias, r);
  }

  lemma PieceKeeps(states: seq<State>, events: seq<Event>, i: nat, j: nat, alias: string, r: string)
    requires i <= j <= |events| && j < |states| && Guarded(states[i], states[i], alias, r)
    requires Unpurged(states[i..j + 1], events[i..j], states[i], r)
    ensures Guarded(states[i], states[j], alias, r)
  {
    PathsKeepGuard(states[i..j + 1], events[i..j], states[i], alias, r, j - i);
    assert states[i..j + 1][j - i] == states[j];
  }

  lemma GuardedNow(states: seq<State>, events: seq<Event>, i: nat, alias: string, r: string)
    requires IsRun(states, events) && i < |states| && Protected(states[i], alias, r)
    ensures Guarded(states[i], states[i], alias, r)
  {
    AlwaysCleanupOk(states, events, i);
  }

  lemma PieceIsUnpurged(states: seq<State>, events: seq<Event>, i: nat, j: nat, r: string)
    requires IsRun(states, events) && i <= j < |states|
    requires forall m :: i <= m < j ==> events[m] != ByClient(r, PurgeBegin)
    ensures Unpurged(states[i..j + 1], events[i..j], states[i], r)
  {
    var ss, es := states[i..j + 1], events[i..j];
    forall n | 0 <= n < |es|
      ensures Can(ss[n], es[n]) && ss[n + 1] == After(ss[n], es[n])
    {
      StepOfARun(states, events, i + n);
    }
  }

  lemma StepOfARun(states: seq<State>, events: seq<Event>, i: nat)
    requires IsRun(states, events) && i < |events|
    ensures Can(states[i], events[i]) && states[i + 1] == After(states[i], events[i])
  {
  }
}
