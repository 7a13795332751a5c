/** The janitor reclaims nothing but dead runs, in every interleaving. */
module LifecycleSafety {
  import opened Wrappers
  import opened Text
  import opened Layout
  import opened Ids
  import opened Tracking
  import opened S3
  import opened Sweep
  import opened SweepReach
  import opened SweepMeaning
  import opened Lifecycle
  import opened LifecycleKeys
  import Upload

  // ---- the status of a run follows its producer ----

  predicate StatusFits(phase: Phase, status: Status, ambiguous: bool) {
    match phase
    case Returned => status == FINISHED && !ambiguous
    case Halted => status == KILLED
    case RaisedOut(_, true) => status == FAILED
    case Cleaning | Deleting(_) | Failing(_) | RaisedOut(_, false) =>
      status == if ambiguous then FINISHED else RUNNING
    case _ => status == RUNNING && !ambiguous
  }

  predicate StatusOk(s: State) {
    s.ambiguous <= s.producers.Keys &&
    forall r :: r in s.producers && r in s.runs ==>
      StatusFits(s.producers[r].phase, s.runs[r].status, r in s.ambiguous)
  }

  /** A step of one producer leaves every other run and its producer as they were. */
  lemma LogTouchesOneRun(s: State, r: string, step: ProducerStep, q: string)
    requires CanLog(s, r, step) && q != r
    ensures var t := AfterLog(s, r, step);
            (q in t.producers <==> q in s.producers) && (q in s.producers ==> t.producers[q] == s.producers[q]) &&
            (q in t.runs <==> q in s.runs) && (q in s.runs ==> t.runs[q] == s.runs[q]) &&
            (q in t.ambiguous <==> q in s.ambiguous) && t.purgeBegun == s.purgeBegun && t.bucket == s.bucket
  {
  }

  lemma LogKeepsOneStatus(s: State, r: string, step: ProducerStep, q: string)
    requires StatusOk(s) && CanLog(s, r, step)
    requires q in AfterLog(s, r, step).producers && q in AfterLog(s, r, step).runs
    ensures var t := AfterLog(s, r, step);
            StatusFits(t.producers[q].phase, t.runs[q].status, q in t.ambiguous)
  {
    if q != r {
      LogTouchesOneRun(s, r, step, q);
      assert StatusFits(s.producers[q].phase, s.runs[q].status, q in s.ambiguous);
    } else {
      OwnStatusFits(s, r, step);
    }
  }

  lemma OwnStatusFits(s: State, r: string, step: ProducerStep)
    requires StatusOk(s) && CanLog(s, r, step)
    ensures var t := AfterLog(s, r, step);
            r in t.producers && r in t.runs && StatusFits(t.producers[r].phase, t.runs[r].status, r in t.ambiguous)
  {
    assert r in s.producers && r in s.runs ==> StatusFits(s.producers[r].phase, s.runs[r].status, r in s.ambiguous);
  }

  lemma OnlyProducersAreAmbiguous(s: State, r: string, step: ProducerStep)
    requires StatusOk(s) && CanLog(s, r, step)
    ensures AfterLog(s, r, step).ambiguous <= AfterLog(s, r, step).producers.Keys
  {
  }

  lemma LogKeepsStatus(s: State, r: string, step: ProducerStep)
    requires StatusOk(s) && CanLog(s, r, step)
    ensures StatusOk(AfterLog(s, r, step))
  {
    var t := AfterLog(s, r, step);
    OnlyProducersAreAmbiguous(s, r, step);
    forall q | q in t.producers && q in t.runs
      ensures StatusFits(t.producers[q].phase, t.runs[q].status, q in t.ambiguous)
    {
      LogKeepsOneStatus(s, r, step, q);
    }
  }

  lemma CallKeepsStatus(s: State, r: string, step: ClientStep)
    requires StatusOk(s) && CanCall(s, r, step)
    ensures StatusOk(AfterCall(s, r, step))
  {
  }

  // ---- dead is absorbing ----

  lemma DeadStaysDead(s: State, e: Event, r: string)
    requires Keyed(s) && StatusOk(s) && Can(s, e) && Dead(s, r)
    ensures Dead(After(s, e), r)
  {
    match e {
      case ByProducer(q, step) => LoggingRevivesNothing(s, q, step, r);
      case ByClient(q, step) => CallsReviveNothing(s, q, step, r);
      case ByJanitor(step) => SweepTouchesNoRun(s, step);
      case Tick(_) =>
    }
  }

  lemma CallsReviveNothing(s: State, q: string, step: ClientStep, r: string)
    requires CanCall(s, q, step) && Dead(s, r)
    ensures Dead(AfterCall(s, q, step), r)
  {
  }

  lemma SweepTouchesNoRun(s: State, step: JanitorStep)
    requires CanSweep(s, step)
    ensures var t := AfterSweep(s, step);
            t == s.(objects := t.objects, janitor := t.janitor) && t.objects.Keys <= s.objects.Keys
  {
  }

  lemma LoggingRevivesNothing(s: State, q: string, step: ProducerStep, r: string)
    requires StatusOk(s) && CanLog(s, q, step) && Dead(s, r)
    ensures Dead(AfterLog(s, q, step), r)
  {
  }

  // ---- what the janitor carries ----

  /** A prefix a listing of run prefixes can report. */
  predicate Enumerable(p: string) { Listed(p) == Some(p) }

  /** The prefixes the janitor has committed to delete. */
  function Committed(j: JanitorPhase): seq<string> {
    match j
    case Sweeping(tally, _) => tally.orphans
    case Judging(tally, _, _, _) => tally.orphans
    case Purging(todo) => todo
    case Emptying(p, _, todo) => [p] + todo
    case _ => []
  }

  function StillToJudge(j: JanitorPhase): seq<string> {
    match j
    case Sweeping(_, todo) => todo
    case Judging(_, p, _, todo) => [p] + todo
    case _ => []
  }

  predicate OrphanOk(s: State, p: string) {
    Enumerable(p) && MatchesRunId(RunIdOf(p)) && OwnerId(p).Some? && Dead(s, OwnerId(p).value)
  }

  predicate JanitorOk(s: State) {
    (forall p :: p in Committed(s.janitor) ==> OrphanOk(s, p)) &&
    (forall p :: p in StillToJudge(s.janitor) ==> Enumerable(p)) &&
    (s.janitor.Judging? ==>
       MatchesRunId(RunIdOf(s.janitor.prefix)) && OwnerId(s.janitor.prefix).Some? &&
       OwnerId(s.janitor.prefix).value in s.seen) &&
    (s.janitor.Emptying? ==>
       StaysHome(s.janitor.prefix) && forall k :: k in s.janitor.pending ==> TargetOfHome(s.janitor.prefix) <= k)
  }

  predicate Safe(s: State) { Keyed(s) && StatusOk(s) && JanitorOk(s) }

  lemma KeysShareTheirPrefixOwner(p: string, k: string)
    requires Listed(p) == Some(p) && p <= k
    ensures Listed(k) == Some(p) && OwnerId(p).Some? && OwnerId(k) == OwnerId(p)
  {
    var a, r := ListedShape(p);
    ListedOfRun(a, r, k);
    OwnerOfRunKey(a, r, k);
    OwnerOfRunKey(a, r, p);
  }

  lemma SeenNeverShrinks(s: State, e: Event)
    requires Can(s, e)
    ensures s.seen <= After(s, e).seen
  {
  }

  lemma OnlyTheJanitorMoves(s: State, e: Event)
    requires Can(s, e) && !e.ByJanitor?
    ensures After(s, e).janitor == s.janitor
  {
  }

  lemma StaysOrphan(s: State, e: Event, p: string)
    requires Keyed(s) && StatusOk(s) && Can(s, e) && OrphanOk(s, p)
    ensures OrphanOk(After(s, e), p)
  {
    DeadStaysDead(s, e, OwnerId(p).value);
  }

  /** What the janitor carries is still in order when its orphans still are. */
  lemma SameCarriedOk(s: State, t: State)
    requires JanitorOk(s) && t.janitor == s.janitor && s.seen <= t.seen
    requires forall p :: p in Committed(s.janitor) ==> OrphanOk(t, p)
    ensures JanitorOk(t)
  {
  }

  /** A step that leaves the janitor alone leaves its commitments dead. */
  lemma OthersKeepJanitorOk(s: State, e: Event)
    requires Safe(s) && Can(s, e) && !e.ByJanitor?
    ensures JanitorOk(After(s, e))
  {
    SeenNeverShrinks(s, e);
    OnlyTheJanitorMoves(s, e);
    forall p | p in Committed(s.janitor)
      ensures OrphanOk(After(s, e), p)
    {
      StaysOrphan(s, e, p);
    }
    SameCarriedOk(s, After(s, e));
  }

  lemma ScanKeepsJanitorOk(s: State)
    requires Safe(s) && CanSweep(s, Scan)
    ensures JanitorOk(AfterSweep(s, Scan))
  {
    var p := s.janitor.todo[0];
    assert p in StillToJudge(s.janitor);
    var t := AfterSweep(s, Scan);
    assert Committed(t.janitor) == Committed(s.janitor);
    assert forall q :: q in StillToJudge(t.janitor) ==> q in StillToJudge(s.janitor);
    if Under(s.objects, p) != {} {
      var k :| k in Under(s.objects, p);
      KeysShareTheirPrefixOwner(p, k);
    }
  }

  /** The id a listed prefix is judged by is its owner's. */
  lemma JudgedByItsOwner(p: string)
    requires Listed(p) == Some(p)
    ensures OwnerId(p).Some? && (OwnerId(p).value != "" ==> RunIdOf(p) == OwnerId(p).value)
  {
    var a, r := ListedShape(p);
    OwnerOfRunKey(a, r, p);
    if r != "" {
      RunIdOfPrefix(a, r);
    }
  }

  /** An authoritative answer of "orphan" means the prefix's run is dead. */
  lemma OrphanIsDead(s: State, reply: Reply)
    requires Safe(s) && CanSweep(s, Judge(reply)) && Classify(reply) == Orphaned
    ensures OrphanOk(s, s.janitor.prefix)
  {
    var p := s.janitor.prefix;
    assert p in StillToJudge(s.janitor);
    JudgedByItsOwner(p);
    NoRunWithoutAnId(s);
    if OwnerId(p).value != "" {
      OrphanedMeansDead(s, RunIdOf(p), reply);
    }
  }

  lemma NoRunWithoutAnId(s: State)
    requires Keyed(s)
    ensures "" !in s.runs
  {
  }

  lemma OrphanedMeansDead(s: State, r: string, reply: Reply)
    requires Authoritative(s, r, reply) && Classify(reply) == Orphaned && r in s.seen
    ensures Dead(s, r)
  {
  }

  lemma JudgeKeepsJanitorOk(s: State, reply: Reply)
    requires Safe(s) && CanSweep(s, Judge(reply))
    ensures JanitorOk(AfterSweep(s, Judge(reply)))
  {
    var t := AfterSweep(s, Judge(reply));
    if Classify(reply) == Orphaned {
      OrphanIsDead(s, reply);
    }
    assert forall p :: p in Committed(t.janitor) ==> p in Committed(s.janitor) || p == s.janitor.prefix;
    assert forall p :: p in StillToJudge(t.janitor) ==> p in StillToJudge(s.janitor);
  }

  /** Listing an orphan that stays home by its URI lists keys of its own run. */
  lemma ListingTakesItsOwn(s: State)
    requires CanSweep(s, ListOrphan) && LegalBucket(s.bucket)
    ensures var p := s.janitor.todo[0];
            AfterSweep(s, ListOrphan) ==
            s.(janitor := Emptying(p, Under(s.objects, TargetOfHome(p)), s.janitor.todo[1..]))
  {
    HomeReach(s.bucket, s.janitor.todo[0]);
  }

  lemma ListKeepsJanitorOk(s: State)
    requires Safe(s) && CanSweep(s, ListOrphan)
    ensures JanitorOk(AfterSweep(s, ListOrphan))
  {
    ListingTakesItsOwn(s);
    HomeReach(s.bucket, s.janitor.todo[0]);
    EmptyingIsOk(s, AfterSweep(s, ListOrphan));
  }

  lemma EmptyingIsOk(s: State, t: State)
    requires JanitorOk(s) && s.janitor.Purging? && s.janitor.todo != []
    requires t == s.(janitor := t.janitor) && t.janitor.Emptying?
    requires t.janitor.prefix == s.janitor.todo[0] && t.janitor.todo == s.janitor.todo[1..]
    requires StaysHome(t.janitor.prefix)
    requires forall k :: k in t.janitor.pending ==> TargetOfHome(t.janitor.prefix) <= k
    ensures JanitorOk(t)
  {
    assert [s.janitor.todo[0]] + s.janitor.todo[1..] == s.janitor.todo;
    SameDead(s, t);
  }

  lemma SameDead(s: State, t: State)
    requires t == s.(janitor := t.janitor) && Committed(t.janitor) == Committed(s.janitor)
    requires forall p :: p in Committed(s.janitor) ==> OrphanOk(s, p)
    ensures forall p :: p in Committed(t.janitor) ==> OrphanOk(t, p)
  {
  }

  lemma SweepKeepsJanitorOk(s: State, step: JanitorStep)
    requires Safe(s) && CanSweep(s, step)
    ensures JanitorOk(AfterSweep(s, step))
  {
    match step {
      case Scan => ScanKeepsJanitorOk(s);
      case Judge(reply) => JudgeKeepsJanitorOk(s, reply);
      case ListOrphan => ListKeepsJanitorOk(s);
      case _ => OtherStepsKeepJanitorOk(s, step);
    }
  }

  lemma OtherStepsKeepJanitorOk(s: State, step: JanitorStep)
    requires Safe(s) && CanSweep(s, step) && !step.Scan? && !step.Judge? && !step.ListOrphan?
    ensures JanitorOk(AfterSweep(s, step))
  {
    var t := AfterSweep(s, step);
    assert forall p :: p in Committed(t.janitor) ==> p in Committed(s.janitor);
    assert forall p :: p in Committed(s.janitor) ==> OrphanOk(s, p) && OrphanOk(t, p);
  }

  lemma StepKeepsSafe(s: State, e: Event)
    requires Safe(s) && Can(s, e)
    ensures Safe(After(s, e))
  {
    StepKeepsKeys(s, e);
    match e {
      case ByProducer(r, step) => LogKeepsStatus(s, r, step); OthersKeepJanitorOk(s, e);
      case ByClient(r, step) => CallKeepsStatus(s, r, step); OthersKeepJanitorOk(s, e);
      case ByJanitor(step) => SweepKeepsJanitorOk(s, step);
      case Tick(_) => OthersKeepJanitorOk(s, e);
    }
  }

  lemma {:induction false} AlwaysSafe(states: seq<State>, events: seq<Event>, i: nat)
    requires IsRun(states, events) && i < |states|
    ensures Safe(states[i])
  {
    if i > 0 {
      AlwaysSafe(states, events, i - 1);
      StepKeepsSafe(states[i - 1], events[i - 1]);
    }
  }

  /** The keys a janitor step removes are of the run of a prefix it is committed to. */
  lemma RemovedKeysAreOrphaned(s: State, step: JanitorStep, k: string)
    requires Safe(s) && CanSweep(s, step)
    requires k in s.objects && k !in AfterSweep(s, step).objects
    ensures OwnerId(k).Some? && Dead(s, OwnerId(k).value)
  {
    assert s.janitor.prefix in Committed(s.janitor);
    HomeReach(s.bucket, s.janitor.prefix);
  }

  /**
   * In every interleaving of producers, clients and sweeps: whatever object the janitor deletes,
   * every run it can belong to is, at that moment and ever after, absent, soft-deleted, or FAILED or
   * KILLED.
   */
  lemma JanitorReclaimsOnlyDeadRuns(states: seq<State>, events: seq<Event>, i: nat, k: string)
    requires IsRun(states, events) && i < |events| && events[i].ByJanitor?
    requires k in states[i].objects && k !in states[i + 1].objects
    ensures forall alias, r ::
              SlashFree(alias) && SlashFree(r) && alias + "/" + r + "/" <= k ==>
                forall j :: i <= j < |states| && r in states[j].runs ==>
                  var info := states[j].runs[r];
                  info.deleted || info.status == FAILED || info.status == KILLED
  {
    AlwaysSafe(states, events, i);
    RemovedKeysAreOrphaned(states[i], events[i].sweep, k);
    forall alias, r, j | SlashFree(alias) && SlashFree(r) && alias + "/" + r + "/" <= k && i <= j < |states|
      ensures Dead(states[j], r)
    {
      OwnerOfRunKey(alias, r, k);
      DeadFrom(states, events, i, j, r);
    }
  }

  lemma {:induction false} DeadFrom(states: seq<State>, events: seq<Event>, i: nat, j: nat, r: string)
    requires IsRun(states, events) && i <= j < |states| && Dead(states[i], r)
    ensures Dead(states[j], r)
    decreases j
  {
    if i < j {
      DeadFrom(states, events, i, j - 1, r);
      AlwaysSafe(states, events, j - 1);
      DeadStaysDead(states[j - 1], events[j - 1], r);
    }
  }

  /** The id a janitor's deletion was judged by is a run id, character by character. */
  lemma RemovedKeysHaveARunId(s: State, step: JanitorStep, k: string) returns (alias: string, r: string)
    requires Safe(s) && CanSweep(s, step)
    requires k in s.objects && k !in AfterSweep(s, step).objects
    ensures SlashFree(alias) && SlashFree(r) && RunPrefix(alias, r) <= k && HexChars(if r != "" then r else alias)
  {
    var p := s.janitor.prefix;
    assert p in Committed(s.janitor);
    HomeReach(s.bucket, p);
    SegmentsOf(p);
    alias, r := Without(FirstSegment(p), UNSAFE), OwnerId(p).value;
    WithoutIsSafe(FirstSegment(p), UNSAFE);
    JudgedIdOfHome(p);
  }

  lemma JudgedIdOfHome(p: string)
    requires StaysHome(p) && MatchesRunId(RunIdOf(p))
    ensures var r := OwnerId(p).value; HexChars(if r != "" then r else Without(FirstSegment(p), UNSAFE))
  {
    var x, r := FirstSegment(p), OwnerId(p).value;
    SegmentsOf(p);
    LastSegmentOf(x, r);
    IdsKeepTheirDigits(RunIdOf(p));
    RunIdsAreHex(BeforeFinalNewline(RunIdOf(p)));
    RunIdsAreHex(RunIdOf(p));
    if r != "" {
      DigitsEndNoLine(r);
    }
  }

  lemma DigitsEndNoLine(r: string)
    requires Without(r, UNSAFE) == r && MatchesRunId(r)
    ensures RunId(r)
  {
    WithoutKeeps(r, UNSAFE);
    assert EndsLine(r) ==> '\n' in r;
  }

  /**
   * In every interleaving, whatever object the janitor deletes stands under a prefix of two segments of
   * which the last one that is not empty is 32 lower-case hexadecimal digits.
   */
  lemma JanitorDeletesUnderRunIds(states: seq<State>, events: seq<Event>, i: nat, k: string)
    returns (alias: string, r: string)
    requires IsRun(states, events) && i < |events| && events[i].ByJanitor?
    requires k in states[i].objects && k !in states[i + 1].objects
    ensures SlashFree(alias) && SlashFree(r) && alias + "/" + r + "/" <= k
    ensures HexChars(if r != "" then r else alias)
  {
    AlwaysSafe(states, events, i);
    alias, r := RemovedKeysHaveARunId(states[i], events[i].sweep, k);
  }

  // ---- the grace period ----

  /** An upload stores the next planned object with its bytes, dated by the moment. */
  lemma UploadsAreDated(s: State, r: string)
    requires CanLog(s, r, Store)
    ensures var x := PlanOf(r, s.producers[r])[s.producers[r].phase.next];
            AfterLog(s, r, Store).objects == s.objects[x.key := Object(x.data, Some(s.clock))] &&
            AfterLog(s, r, PutRaised).objects == s.objects[x.key := Object(x.data, Some(s.clock))]
  {
  }

  /** A prefix with an object written within the grace period before the sweep began is not judged. */
  lemma FreshWritesAreSpared(s: State, k: string)
    requires CanSweep(s, Scan) && k in s.objects && s.janitor.todo[0] <= k && s.objects[k].mtime.Some?
    requires s.janitor.tally.now - s.objects[k].mtime.value < s.config.minAge
    ensures var j, t := s.janitor, AfterSweep(s, Scan);
            t == s.(janitor := Sweeping(j.tally.(scanned := j.tally.scanned + 1, skipped := j.tally.skipped + 1),
                                        j.todo[1..]))
  {
    assert k in Under(s.objects, s.janitor.todo[0]);
  }

  /**
   * In every interleaving: a sweep that began less than the grace period after an upload, and finds the
   * uploaded object as it was stored, passes its prefix by.
   */
  lemma UploadsInFlightAreSpared(states: seq<State>, events: seq<Event>, i: nat, j: nat)
    requires IsRun(states, events) && i < j < |events|
    requires events[i].ByProducer? && events[i].log.Store? && events[j] == ByJanitor(Scan)
    requires var r := events[i].run;
             var p := states[i].producers[r];
             var x := PlanOf(r, p)[p.phase.next];
             states[j].janitor.todo[0] == Prefix(r, p) &&
             states[j].janitor.tally.now - states[i].clock < states[j].config.minAge &&
             x.key in states[j].objects && states[j].objects[x.key] == states[i + 1].objects[x.key]
    ensures states[j + 1].janitor.Sweeping? && states[j + 1].janitor.tally.orphans == states[j].janitor.tally.orphans
    ensures states[j + 1].objects == states[j].objects
  {
    var r := events[i].run;
    var p := states[i].producers[r];
    var n := p.phase.next;
    UploadsAreDated(states[i], r);
    Upload.PlanStaysInside(Prefix(r, p), Upload.AllFiles(p.artifacts));
    assert PlanOf(r, p)[n] in PlanOf(r, p);
    FreshWritesAreSpared(states[j], PlanOf(r, p)[n].key);
  }
}
