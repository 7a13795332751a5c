/** Every run `log` has created carries the identity it was called with, in every reachable state. */
module LifecycleIdentity {
  import opened Wrappers
  import opened Ids
  import opened Tracking
  import opened Lifecycle
  import opened LifecycleKeys
  import opened LifecycleSafety
  import opened LifecycleRetention

  /** A producer's identity is what its call was made with, for good. */
  lemma StepKeepsTheIdentity(s: State, e: Event, r: string)
    requires Can(s, e) && r in s.producers
    ensures r in After(s, e).producers && After(s, e).producers[r].identity == s.producers[r].identity
  {
    match e {
      case ByProducer(q, step) => if q != r { LogTouchesOneRun(s, q, step, r); }
      case ByClient(q, step) => CallKeepsTheIdentity(s, q, step, r);
      case ByJanitor(step) => SweepTouchesNoRun(s, step);
      case Tick(_) =>
    }
  }

  lemma CallKeepsTheIdentity(s: State, q: string, step: ClientStep, r: string)
    requires CanCall(s, q, step) && r in s.producers
    ensures var t := AfterCall(s, q, step);
            r in t.producers && t.producers[r].identity == s.producers[r].identity
  {
  }

  lemma CreationSetsTheIdentity(s: State, r: string, step: ProducerStep)
    requires step.Create? && CanLog(s, r, step)
    ensures r in AfterLog(s, r, step).producers && AfterLog(s, r, step).producers[r].identity == step.identity
  {
  }

  predicate HasIdentity(s: State, r: string, id: Identity) { r in s.producers && s.producers[r].identity == id }

  lemma IdentityThen(states: seq<State>, events: seq<Event>, m: nat, r: string)
    requires IsRun(states, events) && m < |events|
    requires events[m].ByProducer? && events[m].run == r && events[m].log.Create?
    ensures HasIdentity(states[m + 1], r, events[m].log.identity)
  {
    StepOfARun(states, events, m);
    CreationSetsTheIdentity(states[m], r, events[m].log);
  }

  lemma IdentityStays(states: seq<State>, events: seq<Event>, i: nat, r: string, id: Identity)
    requires IsRun(states, events) && i < |events| && HasIdentity(states[i], r, id)
    ensures HasIdentity(states[i + 1], r, id)
  {
    StepOfARun(states, events, i);
    StepKeepsTheIdentity(states[i], events[i], r);
  }

  lemma {:induction false} IdentityFrom(states: seq<State>, events: seq<Event>, m: nat, i: nat, r: string, id: Identity)
    requires IsRun(states, events) && m <= i < |states| && HasIdentity(states[m], r, id)
    ensures HasIdentity(states[i], r, id)
    decreases i
  {
    if m < i {
      IdentityFrom(states, events, m, i - 1, r, id);
      IdentityStays(states, events, i - 1, r, id);
    }
  }

  /**
   * From its creation on, whatever its caller logs and whoever else acts, the index holds under every
   * created run the chip, the region, the workload and the alias the call was made with, and version 1.
   */
  lemma CreatedRunsCarryTheirIdentity(states: seq<State>, events: seq<Event>, m: nat, i: nat, r: string)
    requires IsRun(states, events) && m < i < |states|
    requires events[m].ByProducer? && events[m].run == r && events[m].log.Create?
    ensures r in states[i].runs
    ensures var id, info := events[m].log.identity, states[i].runs[r];
            info.TagValue("chip") == Some(id.chip) && info.TagValue("region") == Some(id.region) &&
            info.TagValue("workload_id") == Some(id.workload) && info.TagValue("exp.alias") == Some(id.alias) &&
            info.TagValue("schema_version") == Some("1")
  {
    IdentityThen(states, events, m, r);
    IdentityFrom(states, events, m + 1, i, r, events[m].log.identity);
    CarriedThen(states, events, i, r);
  }

  lemma CarriedThen(states: seq<State>, events: seq<Event>, i: nat, r: string)
    requires IsRun(states, events) && i < |states| && r in states[i].producers
    ensures r in states[i].runs && CarriesIdentity(states[i].runs[r], states[i].producers[r].identity)
  {
    AlwaysCarried(states, events, i);
  }

  // ---- the tags ----

  predicate IdentitiesCarried(s: State) {
    forall r :: r in s.producers ==> r in s.runs && CarriesIdentity(s.runs[r], s.producers[r].identity)
  }

  lemma OpenTagsKeepIdentity(info: RunInfo, key: ContentKey, value: string, id: Identity)
    requires key.Tag? ==> !IsReserved(key.name) || key.name == ARTIFACTS_URI_TAG
    requires CarriesIdentity(info, id)
    ensures CarriesIdentity(info.(logged := info.logged[key := value]), id)
  {
  }

  lemma SameContentCarries(a: RunInfo, b: RunInfo, id: Identity)
    requires a.logged == b.logged && CarriesIdentity(a, id)
    ensures CarriesIdentity(b, id)
  {
  }

  /** What a step of a call does to its own run's content. */
  lemma LogWrites(s: State, r: string, step: ProducerStep)
    requires CanLog(s, r, step) && !step.Create?
    ensures var t := AfterLog(s, r, step);
            r in s.producers && r in s.runs && r in t.producers && r in t.runs &&
            t.producers[r].identity == s.producers[r].identity &&
            t.runs[r].logged ==
            (match step
             case LogContent(key) => s.runs[r].logged[key := s.producers[r].content[key]]
             case SetUri => s.runs[r].logged[Tag(ARTIFACTS_URI_TAG) := OwnUri(s, r, s.producers[r])]
             case _ => s.runs[r].logged)
  {
  }

  lemma OwnStepCarries(s: State, r: string, step: ProducerStep)
    requires Keyed(s) && IdentitiesCarried(s) && CanLog(s, r, step)
    ensures var t := AfterLog(s, r, step);
            r in t.producers && r in t.runs && CarriesIdentity(t.runs[r], t.producers[r].identity)
  {
    if step.Create? {
      CreationSetsTheTags(s, r, step);
    } else {
      var info, id := s.runs[r], s.producers[r].identity;
      var was := info.logged;
      LogWrites(s, r, step);
      assert ProducerKeyed(s, r);
      if step.LogContent? {
        OpenTagsKeepIdentity(info, step.key, s.producers[r].content[step.key], id);
        SameContentCarries(info.(logged := was[step.key := s.producers[r].content[step.key]]),
                           AfterLog(s, r, step).runs[r], id);
      } else if step.SetUri? {
        OpenTagsKeepIdentity(info, Tag(ARTIFACTS_URI_TAG), OwnUri(s, r, s.producers[r]), id);
        SameContentCarries(info.(logged := was[Tag(ARTIFACTS_URI_TAG) := OwnUri(s, r, s.producers[r])]),
                           AfterLog(s, r, step).runs[r], id);
      } else {
        SameContentCarries(info, AfterLog(s, r, step).runs[r], id);
      }
    }
  }

  lemma CreationSetsTheTags(s: State, r: string, step: ProducerStep)
    requires step.Create? && CanLog(s, r, step)
    ensures var t := AfterLog(s, r, step);
            r in t.producers && r in t.runs && CarriesIdentity(t.runs[r], t.producers[r].identity)
  {
    CreationFacts(step.identity);
  }

  lemma LogsCarry(s: State, q: string, step: ProducerStep)
    requires Keyed(s) && IdentitiesCarried(s) && CanLog(s, q, step)
    ensures IdentitiesCarried(AfterLog(s, q, step))
  {
    var t := AfterLog(s, q, step);
    forall r | r in t.producers
      ensures r in t.runs && CarriesIdentity(t.runs[r], t.producers[r].identity)
    {
      if r == q { OwnStepCarries(s, q, step); } else { LogTouchesOneRun(s, q, step, r); }
    }
  }

  lemma CallWritesNothing(s: State, q: string, step: ClientStep, r: string)
    requires CanCall(s, q, step) && r in AfterCall(s, q, step).producers
    ensures var t := AfterCall(s, q, step);
            r in s.producers && t.producers[r].identity == s.producers[r].identity &&
            (r in s.runs ==> r in t.runs && t.runs[r].logged == s.runs[r].logged)
  {
  }

  lemma StepCarries(s: State, e: Event)
    requires Keyed(s) && IdentitiesCarried(s) && Can(s, e)
    ensures IdentitiesCarried(After(s, e))
  {
    match e {
      case ByProducer(q, step) => LogsCarry(s, q, step);
      case ByClient(q, step) => CallsCarry(s, q, step);
      case ByJanitor(step) => SweepTouchesNoRun(s, step);
      case Tick(_) =>
    }
  }

  lemma CallsCarry(s: State, q: string, step: ClientStep)
    requires IdentitiesCarried(s) && CanCall(s, q, step)
    ensures IdentitiesCarried(AfterCall(s, q, step))
  {
    var t := AfterCall(s, q, step);
    forall r | r in t.producers
      ensures r in t.runs && CarriesIdentity(t.runs[r], t.producers[r].identity)
    {
      CallWritesNothing(s, q, step, r);
      SameContentCarries(s.runs[r], t.runs[r], s.producers[r].identity);
    }
  }

  lemma {:induction false} AlwaysCarried(states: seq<State>, events: seq<Event>, i: nat)
    requires IsRun(states, events) && i < |states|
    ensures IdentitiesCarried(states[i])
  {
    if i > 0 {
      AlwaysCarried(states, events, i - 1);
      KeyedBefore(states, events, i - 1);
      StepCarries(states[i - 1], events[i - 1]);
    }
  }

  lemma KeyedBefore(states: seq<State>, events: seq<Event>, i: nat)
    requires IsRun(states, events) && i < |events|
    ensures Keyed(states[i]) && Can(states[i], events[i]) && states[i + 1] == After(states[i], events[i])
  {
    AlwaysSafe(states, events, i);
  }
}
