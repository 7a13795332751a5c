/** What every step keeps about keys, ids and URIs. */
module LifecycleKeys {
  import opened Wrappers
  import opened Layout
  import opened Ids
  import opened Tracking
  import opened S3
  import opened Lifecycle
  import Prefixes
  import Janitor

  predicate ProducerKeyed(s: State, r: string)
    requires r in s.producers
  {
    var p := s.producers[r];
    r in s.runs && SafeName(p.identity.alias) && ValidContent(p.content) &&
    s.runs[r].TagValue(ALIAS_TAG) == Some(p.identity.alias)
  }

  predicate Keyed(s: State) {
    WellKeyed(s) && forall r :: r in s.producers ==> ProducerKeyed(s, r)
  }

  /** The URI of a run reaches its own prefix, and its marker is the one under that prefix. */
  lemma RunUriReaches(b: string, alias: string, r: string)
    requires LegalBucket(b) && SafeName(alias) && RunId(r)
    ensures SlashFree(alias) && SlashFree(r)
    ensures Janitor.Reach(b, ArtifactsUri(b, alias, r)) == RunPrefix(alias, r)
    ensures MarkerKey(ArtifactsUri(b, alias, r)) == Ok(ParsedS3Uri(b, ScanMarker(RunPrefix(alias, r))))
    ensures RunPrefix(alias, r) <= ScanMarker(RunPrefix(alias, r))
    ensures OwnerId(ScanMarker(RunPrefix(alias, r))) == Some(r)
  {
    RunKeysAreTidy(alias, r);
    Prefixes.TargetOfPrefix(b, RunPrefix(alias, r));
    HoldMarksWhatTheSweepReads(b, alias, r);
    OwnerOfRunKey(alias, r, ScanMarker(RunPrefix(alias, r)));
  }

  lemma PlannedKeysAreOwn(r: string, p: Producer, i: nat)
    requires SafeName(p.identity.alias) && RunId(r) && i < |PlanOf(r, p)|
    ensures Prefix(r, p) <= PlanOf(r, p)[i].key && OwnerId(PlanOf(r, p)[i].key) == Some(r)
  {
    RunKeysAreTidy(p.identity.alias, r);
    OwnerOfRunKey(p.identity.alias, r, PlanOf(r, p)[i].key);
  }

  /** Nothing the keys depend on has changed, but objects may be gone. */
  predicate SameKeys(s: State, t: State) {
    t.bucket == s.bucket && t.runs == s.runs && t.seen == s.seen && t.objects.Keys <= s.objects.Keys &&
    (forall r :: r in t.producers ==>
       r in s.producers && t.producers[r].identity == s.producers[r].identity &&
       t.producers[r].content == s.producers[r].content)
  }

  lemma SameKeysStayKeyed(s: State, t: State)
    requires Keyed(s) && SameKeys(s, t)
    ensures Keyed(t)
  {
  }

  lemma AtStaysKeyed(s: State, r: string, phase: Phase)
    requires Keyed(s) && r in s.producers
    ensures Keyed(At(s, r, phase))
  {
  }

  lemma StatusStaysKeyed(s: State, r: string, info: RunInfo)
    requires Keyed(s) && r in s.runs && info.logged == s.runs[r].logged
    ensures Keyed(s.(runs := s.runs[r := info]))
  {
  }

  lemma PutStaysKeyed(s: State, key: string, value: Object, r: string)
    requires Keyed(s) && r in s.runs && OwnerId(key) == Some(r)
    ensures Keyed(s.(objects := s.objects[key := value]))
  {
  }

  lemma CreateStaysKeyed(s: State, r: string, step: ProducerStep)
    requires Keyed(s) && step.Create? && CanLog(s, r, step)
    ensures Keyed(AfterLog(s, r, step))
  {
    CreationFacts(step.identity);
    var t := AfterLog(s, r, step);
    forall q | q in t.producers
      ensures ProducerKeyed(t, q)
    {
      assert q != r ==> ProducerKeyed(s, q);
    }
    forall q | q in t.runs
      ensures OwnsItsUri(t, q)
    {
      assert q != r ==> OwnsItsUri(s, q);
    }
  }

  lemma PutsKeepKeys(s: State, r: string, step: ProducerStep)
    requires Keyed(s) && CanLog(s, r, step) && (step.Store? || step.PutRaised?)
    ensures Keyed(AfterLog(s, r, step))
  {
    var p := s.producers[r];
    assert ProducerKeyed(s, r);
    PlannedKeysAreOwn(r, p, p.phase.next);
    var x := PlanOf(r, p)[p.phase.next];
    PutStaysKeyed(s, x.key, Object(x.data, Some(s.clock)), r);
    AtStaysKeyed(Put(s, r), r, Uploading(p.phase.next + 1));
  }

  lemma LoggedStaysKeyed(s: State, r: string, key: ContentKey, value: string)
    requires Keyed(s) && r in s.producers
    requires (key.Tag? ==> !IsReserved(key.name)) ||
             (key == Tag(ARTIFACTS_URI_TAG) && value == OwnUri(s, r, s.producers[r]))
    ensures ProducerKeyed(s, r) && Keyed(WithLogged(s, r, key, value))
  {
    assert ProducerKeyed(s, r);
    var t := WithLogged(s, r, key, value);
    forall q | q in t.producers
      ensures ProducerKeyed(t, q)
    {
      assert ProducerKeyed(s, q);
    }
    forall q | q in t.runs
      ensures OwnsItsUri(t, q)
    {
      assert OwnsItsUri(s, q);
    }
  }

  lemma WritesKeepKeys(s: State, r: string, step: ProducerStep)
    requires Keyed(s) && CanLog(s, r, step) && (step.LogContent? || step.SetUri?)
    ensures Keyed(AfterLog(s, r, step))
  {
    var p := s.producers[r];
    assert ProducerKeyed(s, r);
    if step.LogContent? {
      LoggedStaysKeyed(s, r, step.key, p.content[step.key]);
      AtStaysKeyed(WithLogged(s, r, step.key, p.content[step.key]), r, Logging(p.phase.left - {step.key}));
    } else {
      LoggedStaysKeyed(s, r, Tag(ARTIFACTS_URI_TAG), OwnUri(s, r, p));
      AtStaysKeyed(WithLogged(s, r, Tag(ARTIFACTS_URI_TAG), OwnUri(s, r, p)), r, Finishing);
    }
  }

  lemma MarksKeepKeys(s: State, r: string, step: ProducerStep)
    requires Keyed(s) && CanLog(s, r, step) && (step.Finish? || step.FinishAmbiguously? || step.MarkFailed?)
    ensures Keyed(AfterLog(s, r, step))
  {
    var status := if step.MarkFailed? then FAILED else FINISHED;
    MarksOnlyTheStatus(s, r, step, status);
    StatusKeeps(s, r, status, AfterLog(s, r, step));
  }

  lemma MarksOnlyTheStatus(s: State, r: string, step: ProducerStep, status: Status)
    requires CanLog(s, r, step)
    requires ((step.Finish? || step.FinishAmbiguously?) && status == FINISHED) || (step.MarkFailed? && status == FAILED)
    ensures SameKeys(WithStatus(s, r, status), AfterLog(s, r, step))
  {
  }

  lemma LogKeepsKeys(s: State, r: string, step: ProducerStep)
    requires Keyed(s) && CanLog(s, r, step)
    ensures Keyed(AfterLog(s, r, step))
  {
    match step {
      case Create(_, _, _) => CreateStaysKeyed(s, r, step);
      case Store => PutsKeepKeys(s, r, step);
      case PutRaised => PutsKeepKeys(s, r, step);
      case LogContent(_) => WritesKeepKeys(s, r, step);
      case SetUri => WritesKeepKeys(s, r, step);
      case Finish => MarksKeepKeys(s, r, step);
      case FinishAmbiguously => MarksKeepKeys(s, r, step);
      case MarkFailed => MarksKeepKeys(s, r, step);
      case _ => QuietStepsKeepKeys(s, r, step);
    }
  }

  lemma QuietStepsKeepKeys(s: State, r: string, step: ProducerStep)
    requires Keyed(s) && CanLog(s, r, step)
    requires !step.Create? && !step.Store? && !step.PutRaised? && !step.LogContent? && !step.SetUri?
    requires !step.Finish? && !step.FinishAmbiguously? && !step.MarkFailed?
    ensures Keyed(AfterLog(s, r, step))
  {
    if step.CleanupDelete? {
      SameKeysStayKeyed(s, AfterLog(s, r, step));
    } else {
      AtStaysKeyed(s, r, AfterLog(s, r, step).producers[r].phase);
    }
  }

  lemma StatusKeeps(s: State, r: string, status: Status, t: State)
    requires Keyed(s) && r in s.runs && SameKeys(WithStatus(s, r, status), t)
    ensures Keyed(t)
  {
    StatusStaysKeyed(s, r, s.runs[r].(status := status));
    SameKeysStayKeyed(WithStatus(s, r, status), t);
  }

  lemma CallKeepsKeys(s: State, r: string, step: ClientStep)
    requires Keyed(s) && CanCall(s, r, step)
    ensures Keyed(AfterCall(s, r, step))
  {
    match step {
      case Hold => HoldStaysKeyed(s, r);
      case SoftDelete => StatusStaysKeyed(s, r, s.runs[r].(deleted := true));
      case Kill => StatusKeeps(s, r, KILLED, AfterCall(s, r, step));
      case SetForeignStatus(status) => StatusKeeps(s, r, status, AfterCall(s, r, step));
      case PutForeign(_, _) => ForeignStaysKeyed(s, r, step);
      case _ => SameKeysStayKeyed(s, AfterCall(s, r, step));
    }
  }

  lemma HoldStaysKeyed(s: State, r: string)
    requires Keyed(s) && CanCall(s, r, Hold)
    ensures Keyed(AfterCall(s, r, Hold))
  {
    var m := MarkerKey(s.runs[r].ArtifactsUri().value).value.key;
    assert OwnsItsUri(s, r);
    RunUriReaches(s.bucket, s.runs[r].TagValue(ALIAS_TAG).value, r);
    PutStaysKeyed(s, m, Object([], Some(s.clock)), r);
    SameKeysStayKeyed(s.(objects := s.objects[m := Object([], Some(s.clock))]), AfterCall(s, r, Hold));
  }

  lemma ForeignStaysKeyed(s: State, r: string, step: ClientStep)
    requires Keyed(s) && step.PutForeign? && CanCall(s, r, step)
    ensures Keyed(AfterCall(s, r, step))
  {
  }

  lemma StepKeepsKeys(s: State, e: Event)
    requires Keyed(s) && Can(s, e)
    ensures Keyed(After(s, e))
  {
    match e {
      case ByProducer(r, step) => LogKeepsKeys(s, r, step);
      case ByClient(r, step) => CallKeepsKeys(s, r, step);
      case ByJanitor(step) => SweepKeepsKeys(s, step);
      case Tick(_) => SameKeysStayKeyed(s, After(s, e));
    }
  }

  lemma SweepKeepsKeys(s: State, step: JanitorStep)
    requires Keyed(s) && CanSweep(s, step)
    ensures Keyed(AfterSweep(s, step))
  {
  }
}
