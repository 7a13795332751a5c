/**
 * The run lifecycle as one transition system: any number of `log` producers, consumers that hold
 * and purge, and one apply-mode janitor, over an object store and an index that share no
 * transaction. Every call the program makes to either store is a step of its own.
 */
module Lifecycle {
  import opened Wrappers
  import opened Layout
  import opened Ids
  import opened Tracking
  import opened S3
  import opened Sweep
  import opened SweepReach
  import Upload
  import Janitor

  /** How far one `log` call has come since its run was created. */
  datatype Phase =
    | Planning
    | Uploading(next: nat)
    | Logging(left: set<ContentKey>)
    | Finishing
    | Returned
    | Cleaning
    | Deleting(pending: set<string>)
    | Failing(cleaned: bool)
    | RaisedOut(cleaned: bool, marked: bool)
    | Halted

  datatype Producer = Producer(identity: Identity, artifacts: seq<Upload.Artifact>, content: Content, phase: Phase)

  datatype Tally = Tally(now: Time, scanned: nat, skipped: nat, orphans: seq<string>)

  datatype JanitorPhase =
    | Idle
    | Listing(now: Time)
    | Sweeping(tally: Tally, todo: seq<string>)
    | Judging(tally: Tally, prefix: string, marked: bool, todo: seq<string>)
    | Purging(todo: seq<string>)
    | Emptying(prefix: string, pending: set<string>, todo: seq<string>)

  datatype Config = Config(minAge: Time, staleAfter: Time, maxFraction: real)

  /**
   * `seen` holds every run id the server has issued or a key has carried. The rest is history:
   * `purgeBegun`, `ambiguous` and `held` are the runs of which a purge has begun, whose finishing call
   * took effect although it raised, and which have been held; `cleared` are the keys the cleanup of a
   * `log` has deleted and no hold has written since.
   */
  datatype State = State(
    bucket: string,
    config: Config,
    objects: Objects,
    runs: map<string, RunInfo>,
    producers: map<string, Producer>,
    clock: Time,
    seen: set<string>,
    purgeBegun: set<string>,
    ambiguous: set<string>,
    held: set<string>,
    cleared: set<string>,
    janitor: JanitorPhase)

  datatype ProducerStep =
    | Create(identity: Identity, artifacts: seq<Upload.Artifact>, content: Content)
    | PlanUpload
    | Store
    | PutRaised
    | UploadDone
    | LogContent(key: ContentKey)
    | SetUri
    | Finish
    | FinishAmbiguously
    | Fail
    | CleanupList
    | CleanupDelete(keys: set<string>)
    | CleanupDone
    | CleanupRaised
    | MarkFailed // takes effect; whether it then raises is all one, for `fail_run` swallows it
    | MarkRaised

  datatype ClientStep =
    | Hold
    | PurgeBegin
    | PurgeDelete(keys: set<string>)
    | SoftDelete
    | Kill
    | SetForeignStatus(status: Status)
    | PutForeign(key: string, value: Object)

  datatype JanitorStep =
    | Canary(reply: Reply)
    | Enumerate(prefixes: seq<string>)
    | Scan
    | Judge(reply: Reply)
    | Decide
    | ListOrphan
    | DeleteBatch(keys: set<string>)
    | NextOrphan
    | Stop

  datatype Event =
    | ByProducer(run: string, log: ProducerStep)
    | ByClient(run: string, call: ClientStep)
    | ByJanitor(sweep: JanitorStep)
    | Tick(seconds: Time)

  // ---- producers ----

  function Prefix(r: string, p: Producer): string { RunPrefix(p.identity.alias, r) }

  function PlanOf(r: string, p: Producer): seq<Upload.Planned> { Upload.Plan(p.identity.alias, r, p.artifacts) }

  function OwnUri(s: State, r: string, p: Producer): string { ArtifactsUri(s.bucket, p.identity.alias, r) }

  predicate InBody(phase: Phase) {
    phase.Planning? || phase.Uploading? || phase.Logging? || phase.Finishing?
  }

  /** The server refuses writes to a deleted run, and ids are fresh when it issues them. */
  predicate CanLog(s: State, r: string, step: ProducerStep) {
    if step.Create? then
      RunId(r) && r !in s.seen && r !in s.runs && r !in s.producers &&
      ValidateIdentity(step.identity).Ok? && SafeName(step.identity.alias) && ValidContent(step.content)
    else
      r in s.producers && r in s.runs &&
      var p := s.producers[r];
      var active := !s.runs[r].deleted;
      match step
      case PlanUpload => p.phase.Planning? && Upload.Plannable(p.artifacts)
      case Store => p.phase.Uploading? && p.phase.next < |PlanOf(r, p)|
      case PutRaised => p.phase.Uploading? && p.phase.next < |PlanOf(r, p)|
      case UploadDone => p.phase.Uploading? && p.phase.next == |PlanOf(r, p)|
      case LogContent(key) => p.phase.Logging? && key in p.phase.left && key in p.content && active
      case SetUri => p.phase.Logging? && p.phase.left == {} && active
      case Finish => p.phase.Finishing? && active
      case FinishAmbiguously => p.phase.Finishing? && active
      case Fail => InBody(p.phase)
      case CleanupList => p.phase.Cleaning?
      case CleanupDelete(keys) => p.phase.Deleting? && keys <= p.phase.pending
      case CleanupDone => p.phase.Deleting? && p.phase.pending == {}
      case CleanupRaised => p.phase.Cleaning? || p.phase.Deleting?
      case MarkFailed => p.phase.Failing? && active
      case MarkRaised => p.phase.Failing?
      case Create(_, _, _) => false
  }

  function At(s: State, r: string, phase: Phase): State
    requires r in s.producers
  {
    s.(producers := s.producers[r := s.producers[r].(phase := phase)])
  }

  function WithLogged(s: State, r: string, key: ContentKey, value: string): State
    requires r in s.runs
  {
    s.(runs := s.runs[r := s.runs[r].(logged := s.runs[r].logged[key := value])])
  }

  function WithStatus(s: State, r: string, status: Status): State
    requires r in s.runs
  {
    s.(runs := s.runs[r := s.runs[r].(status := status)])
  }

  function AfterLog(s: State, r: string, step: ProducerStep): State
    requires CanLog(s, r, step)
  {
    match step
    case Create(identity, artifacts, content) =>
      s.(runs := s.runs[r := RunInfo(RUNNING, false, None, CreationContent(identity))],
         producers := s.producers[r := Producer(identity, artifacts, content, Planning)],
         seen := s.seen + {r})
    case PlanUpload => At(s, r, Uploading(0))
    case Store => At(Put(s, r), r, Uploading(s.producers[r].phase.next + 1))
    case PutRaised => Put(s, r)
    case UploadDone => At(s, r, Logging(s.producers[r].content.Keys))
    case LogContent(key) =>
      At(WithLogged(s, r, key, s.producers[r].content[key]), r, Logging(s.producers[r].phase.left - {key}))
    case SetUri =>
      At(WithLogged(s, r, Tag(ARTIFACTS_URI_TAG), OwnUri(s, r, s.producers[r])), r, Finishing)
    case Finish => At(WithStatus(s, r, FINISHED), r, Returned)
    case FinishAmbiguously => At(WithStatus(s, r, FINISHED), r, Cleaning).(ambiguous := s.ambiguous + {r})
    case Fail => At(s, r, Cleaning)
    case CleanupList =>
      At(s, r, Deleting(Under(s.objects, Janitor.Reach(s.bucket, OwnUri(s, r, s.producers[r])))))
    case CleanupDelete(keys) =>
      At(s.(objects := s.objects - keys, cleared := s.cleared + keys), r,
         Deleting(s.producers[r].phase.pending - keys))
    case CleanupDone => At(s, r, Failing(true))
    case CleanupRaised => At(s, r, Failing(false))
    case MarkFailed => At(WithStatus(s, r, FAILED), r, RaisedOut(s.producers[r].phase.cleaned, true))
    case MarkRaised => At(s, r, RaisedOut(s.producers[r].phase.cleaned, false))
  }

  /** The next planned object lands, stamped with the current time. */
  function Put(s: State, r: string): State
    requires r in s.producers && s.producers[r].phase.Uploading?
    requires s.producers[r].phase.next < |PlanOf(r, s.producers[r])|
  {
    var x := PlanOf(r, s.producers[r])[s.producers[r].phase.next];
    s.(objects := s.objects[x.key := Object(x.data, Some(s.clock))])
  }

  // ---- consumers and operators ----

  /** Absent, soft-deleted, or ended without finishing; an absent id that was seen is never issued. */
  predicate Dead(s: State, r: string) {
    r in s.seen && (r in s.runs ==> s.runs[r].deleted || s.runs[r].status in {FAILED, KILLED})
  }

  predicate CanCall(s: State, r: string, step: ClientStep) {
    match step
    case Hold => r in s.runs && s.runs[r].ArtifactsUri().Some? && MarkerKey(s.runs[r].ArtifactsUri().value).Ok?
    case PurgeBegin => r in s.runs
    case PurgeDelete(keys) =>
      r in s.runs && r in s.purgeBegun && s.runs[r].ArtifactsUri().Some? &&
      keys <= Under(s.objects, Janitor.Reach(s.bucket, s.runs[r].ArtifactsUri().value))
    case SoftDelete => r in s.runs
    case Kill => r in s.producers && r in s.runs && InBody(s.producers[r].phase)
    case SetForeignStatus(_) => r in s.runs && r !in s.producers && !Dead(s, r)
    case PutForeign(key, _) => OwnerId(key).Some? ==> OwnerId(key).value !in s.runs
  }

  function AfterCall(s: State, r: string, step: ClientStep): State
    requires CanCall(s, r, step)
  {
    match step
    case Hold =>
      var marker := MarkerKey(s.runs[r].ArtifactsUri().value).value.key;
      s.(objects := s.objects[marker := Object([], Some(s.clock))],
         held := s.held + {r},
         cleared := s.cleared - {marker})
    case PurgeBegin => s.(purgeBegun := s.purgeBegun + {r})
    case PurgeDelete(keys) => s.(objects := s.objects - keys)
    case SoftDelete => s.(runs := s.runs[r := s.runs[r].(deleted := true)])
    case Kill => At(WithStatus(s, r, KILLED), r, Halted)
    case SetForeignStatus(status) => WithStatus(s, r, status)
    case PutForeign(key, value) =>
      s.(objects := s.objects[key := value],
         seen := s.seen + if OwnerId(key).Some? then {OwnerId(key).value} else {})
  }

  // ---- the janitor ----

  /** An authoritative server says what the index holds, or raises something else. */
  predicate Authoritative(s: State, r: string, reply: Reply) {
    (reply.Found? ==> r in s.runs && reply.info == s.runs[r]) && (IsNotFound(reply) ==> r !in s.runs)
  }

  predicate CanSweep(s: State, step: JanitorStep) {
    var j := s.janitor;
    match step
    case Canary(_) => j.Idle?
    case Enumerate(prefixes) => j.Listing? && forall p :: p in prefixes ==> Listed(p) == Some(p)
    case Scan => j.Sweeping? && j.todo != []
    case Judge(reply) => j.Judging? && Authoritative(s, RunIdOf(j.prefix), reply)
    case Decide => j.Sweeping? && j.todo == []
    case ListOrphan => j.Purging? && j.todo != [] && StaysHome(j.todo[0])
    case DeleteBatch(keys) => j.Emptying? && keys <= j.pending
    case NextOrphan => j.Emptying? && j.pending == {}
    case Stop => true
  }

  function SeenAt(s: State, now: Time): View {
    View(s.bucket, s.objects, Raised(None, None), p => Raised(None, None), now, s.config.minAge, s.config.staleAfter)
  }

  ghost function AfterScan(s: State): JanitorPhase
    requires s.janitor.Sweeping? && s.janitor.todo != []
  {
    var Sweeping(tally, todo) := s.janitor;
    var p := todo[0];
    var counted := tally.(scanned := tally.scanned + 1);
    if Under(s.objects, p) == {} then Sweeping(counted, todo[1..])
    else if WrittenLately(SeenAt(s, tally.now), p) || !MatchesRunId(RunIdOf(p)) then
      Sweeping(counted.(skipped := tally.skipped + 1), todo[1..])
    else Judging(counted, p, ScanMarker(p) in Under(s.objects, p), todo[1..])
  }

  function AfterJudge(j: JanitorPhase, reply: Reply): JanitorPhase
    requires j.Judging?
  {
    match Classify(reply)
    case NotAuthoritative => Idle
    case Orphaned =>
      Sweeping(if j.marked then j.tally else j.tally.(orphans := j.tally.orphans + [j.prefix]), j.todo)
    case _ => Sweeping(j.tally, j.todo)
  }

  predicate BreakerTrips(config: Config, tally: Tally) {
    tally.scanned - tally.skipped >= MIN_SCANNED_FOR_FRACTION &&
    |tally.orphans| as real > config.maxFraction * ((tally.scanned - tally.skipped) as real)
  }

  ghost function AfterSweep(s: State, step: JanitorStep): State
    requires CanSweep(s, step)
  {
    var j := s.janitor;
    match step
    case Canary(reply) =>
      s.(janitor := if Classify(reply) == NotAuthoritative then Idle else Listing(s.clock))
    case Enumerate(prefixes) => s.(janitor := Sweeping(Tally(j.now, 0, 0, []), prefixes))
    case Scan => s.(janitor := AfterScan(s))
    case Judge(reply) => s.(janitor := AfterJudge(j, reply))
    case Decide => s.(janitor := if BreakerTrips(s.config, j.tally) then Idle else Purging(j.tally.orphans))
    case ListOrphan =>
      s.(janitor := Emptying(j.todo[0], Under(s.objects, Janitor.Reach(s.bucket, Uri(s.bucket, j.todo[0]))),
                             j.todo[1..]))
    case DeleteBatch(keys) =>
      s.(objects := s.objects - keys, janitor := Emptying(j.prefix, j.pending - keys, j.todo))
    case NextOrphan => s.(janitor := Purging(j.todo))
    case Stop => s.(janitor := Idle)
  }

  // ---- runs of the system ----

  predicate Can(s: State, e: Event) {
    match e
    case ByProducer(r, step) => CanLog(s, r, step)
    case ByClient(r, step) => CanCall(s, r, step)
    case ByJanitor(step) => CanSweep(s, step)
    case Tick(seconds) => seconds >= 0.0
  }

  ghost function After(s: State, e: Event): State
    requires Can(s, e)
  {
    match e
    case ByProducer(r, step) => AfterLog(s, r, step)
    case ByClient(r, step) => AfterCall(s, r, step)
    case ByJanitor(step) => AfterSweep(s, step)
    case Tick(seconds) => s.(clock := s.clock + seconds)
  }

  /** The artifacts URI of a run, where one is recorded, is the URI of its own prefix. */
  predicate OwnsItsUri(s: State, r: string)
    requires r in s.runs
  {
    s.runs[r].ArtifactsUri().Some? ==>
      s.runs[r].TagValue(ALIAS_TAG).Some? && SafeName(s.runs[r].TagValue(ALIAS_TAG).value) &&
      s.runs[r].ArtifactsUri().value == ArtifactsUri(s.bucket, s.runs[r].TagValue(ALIAS_TAG).value, r)
  }

  predicate WellKeyed(s: State) {
    LegalBucket(s.bucket) &&
    (forall r :: r in s.runs ==> RunId(r) && r in s.seen && OwnsItsUri(s, r)) &&
    (forall k :: k in s.objects && OwnerId(k).Some? ==> OwnerId(k).value in s.seen)
  }

  /** Any bucket and any index to start from, before the first call of `log` and between sweeps. */
  predicate Initial(s: State) {
    WellKeyed(s) && s.producers == map[] && s.janitor == Idle &&
    s.purgeBegun == {} && s.ambiguous == {} && s.held == {} && s.cleared == {}
  }

  /** A finite run: its events and the states between them. */
  ghost predicate IsRun(states: seq<State>, events: seq<Event>) {
    |states| == |events| + 1 && Initial(states[0]) &&
    forall i :: 0 <= i < |events| ==> Can(states[i], events[i]) && states[i + 1] == After(states[i], events[i])
  }
}
