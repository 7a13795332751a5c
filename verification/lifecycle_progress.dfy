/** A `log` call that nothing disturbs runs through to a complete run. */
module LifecycleProgress {
  import opened Ids
  import opened Tracking
  import opened Lifecycle
  import opened LifecycleComplete
  import Upload

  /**
   * A run of the system in which the `log` call of `r`, alone, has come as far as `p`; `late` says that
   * its finishing call took effect although it raised.
   */
  ghost predicate Reached(states: seq<State>, events: seq<Event>, s0: State, r: string, p: Producer, late: bool) {
    IsRun(states, events) && states[0] == s0 && (forall e :: e in events ==> e.ByProducer? && e.run == r) &&
    Stands(states[|events|], r, p, late)
  }

  predicate Stands(s: State, r: string, p: Producer, late: bool) {
    r in s.producers && s.producers[r] == p && r in s.runs && !s.runs[r].deleted &&
    s.runs[r].status == (if late || p.phase.Returned? then FINISHED else RUNNING) &&
    r !in s.purgeBegun && (r in s.ambiguous <==> late) && r !in s.held
  }

  /** A step that changes no status but by finishing. */
  predicate Straight(step: ProducerStep) { !step.Create? && !step.MarkFailed? }

  lemma StepStands(s: State, r: string, p: Producer, late: bool, step: ProducerStep, phase: Phase)
    requires Stands(s, r, p, late) && Straight(step) && CanLog(s, r, step)
    requires AfterLog(s, r, step).producers[r].phase == phase
    ensures Stands(AfterLog(s, r, step), r, p.(phase := phase), late || step.FinishAmbiguously?)
  {
  }

  lemma RunGrows(states: seq<State>, events: seq<Event>, e: Event)
    requires IsRun(states, events) && Can(states[|events|], e)
    ensures IsRun(states + [After(states[|events|], e)], events + [e])
  {
  }

  lemma Step(states0: seq<State>, events0: seq<Event>, e: Event) returns (states: seq<State>, events: seq<Event>)
    requires IsRun(states0, events0) && Can(states0[|events0|], e)
    ensures IsRun(states, events) && events == events0 + [e] && states0 <= states
    ensures states[|events|] == After(states0[|events0|], e)
  {
    RunGrows(states0, events0, e);
    states, events := states0 + [After(states0[|events0|], e)], events0 + [e];
  }

  lemma Extend(states: seq<State>, events: seq<Event>, s0: State, r: string, p: Producer, late: bool,
               step: ProducerStep, phase: Phase)
    returns (states': seq<State>, events': seq<Event>)
    requires Reached(states, events, s0, r, p, late) && Straight(step) && CanLog(states[|events|], r, step)
    requires AfterLog(states[|events|], r, step).producers[r].phase == phase
    ensures Reached(states', events', s0, r, p.(phase := phase), late || step.FinishAmbiguously?)
    ensures states'[|events'|] == AfterLog(states[|events|], r, step)
  {
    StepStands(states[|events|], r, p, late, step, phase);
    states', events' := Step(states, events, ByProducer(r, step));
  }

  lemma {:induction false} UploadRest(states: seq<State>, events: seq<Event>, s0: State, r: string, p: Producer)
    returns (states': seq<State>, events': seq<Event>)
    requires Reached(states, events, s0, r, p, false) && p.phase.Uploading? && p.phase.next <= |PlanOf(r, p)|
    ensures Reached(states', events', s0, r, p.(phase := Uploading(|PlanOf(r, p)|)), false)
    decreases |PlanOf(r, p)| - p.phase.next
  {
    states', events' := states, events;
    if p.phase.next < |PlanOf(r, p)| {
      var q := p.(phase := Uploading(p.phase.next + 1));
      assert PlanOf(r, q) == PlanOf(r, p);
      states', events' := Extend(states, events, s0, r, p, false, Store, q.phase);
      states', events' := UploadRest(states', events', s0, r, q);
    }
  }

  lemma {:induction false} LogRest(states: seq<State>, events: seq<Event>, s0: State, r: string, p: Producer)
    returns (states': seq<State>, events': seq<Event>)
    requires Reached(states, events, s0, r, p, false) && p.phase.Logging? && p.phase.left <= p.content.Keys
    ensures Reached(states', events', s0, r, p.(phase := Logging({})), false)
    decreases if p.phase.Logging? then p.phase.left else {}
  {
    states', events' := states, events;
    if p.phase.left != {} {
      var key :| key in p.phase.left;
      var q := p.(phase := Logging(p.phase.left - {key}));
      states', events' := Extend(states, events, s0, r, p, false, LogContent(key), q.phase);
      states', events' := LogRest(states', events', s0, r, q);
    }
  }

  lemma CreateStands(s: State, id: Identity, artifacts: seq<Upload.Artifact>, content: Content, r: string)
    requires Initial(s) && RunId(r) && r !in s.seen
    requires ValidateIdentity(id).Ok? && SafeName(id.alias) && ValidContent(content)
    ensures var step := Create(id, artifacts, content);
            CanLog(s, r, step) &&
            Stands(AfterLog(s, r, step), r, Producer(id, artifacts, content, Planning), false)
  {
  }

  lemma Begin(s0: State, id: Identity, artifacts: seq<Upload.Artifact>, content: Content, r: string)
    returns (states: seq<State>, events: seq<Event>)
    requires Initial(s0) && RunId(r) && r !in s0.seen
    requires ValidateIdentity(id).Ok? && SafeName(id.alias) && ValidContent(content)
    ensures Reached(states, events, s0, r, Producer(id, artifacts, content, Planning), false)
  {
    var e := ByProducer(r, Create(id, artifacts, content));
    CreateStands(s0, id, artifacts, content, r);
    assert IsRun([s0], []);
    RunGrows([s0], [], e);
    states, events := [s0] + [After(s0, e)], [] + [e];
  }

  lemma Transferred(states0: seq<State>, events0: seq<Event>, s0: State, r: string, p: Producer)
    returns (states: seq<State>, events: seq<Event>)
    requires Reached(states0, events0, s0, r, p, false) && p.phase.Planning? && Upload.Plannable(p.artifacts)
    ensures Reached(states, events, s0, r, p.(phase := Logging(p.content.Keys)), false)
  {
    var q := p.(phase := Uploading(0));
    states, events := Extend(states0, events0, s0, r, p, false, PlanUpload, q.phase);
    states, events := UploadRest(states, events, s0, r, q);
    q := p.(phase := Uploading(|PlanOf(r, q)|));
    assert PlanOf(r, q) == PlanOf(r, p);
    states, events := Extend(states, events, s0, r, q, false, UploadDone, Logging(p.content.Keys));
  }

  /** All content and the URI are logged; only the finishing call is left. */
  lemma Recorded(states0: seq<State>, events0: seq<Event>, s0: State, r: string, p: Producer)
    returns (states: seq<State>, events: seq<Event>)
    requires Reached(states0, events0, s0, r, p, false) && p.phase == Logging(p.content.Keys)
    ensures Reached(states, events, s0, r, p.(phase := Finishing), false)
  {
    states, events := LogRest(states0, events0, s0, r, p);
    states, events := Extend(states, events, s0, r, p.(phase := Logging({})), false, SetUri, Finishing);
  }

  lemma UpToFinishing(s0: State, id: Identity, artifacts: seq<Upload.Artifact>, content: Content, r: string)
    returns (states: seq<State>, events: seq<Event>)
    requires Initial(s0) && RunId(r) && r !in s0.seen && Upload.Plannable(artifacts)
    requires ValidateIdentity(id).Ok? && SafeName(id.alias) && ValidContent(content)
    ensures Reached(states, events, s0, r, Producer(id, artifacts, content, Finishing), false)
  {
    var p := Producer(id, artifacts, content, Planning);
    states, events := Begin(s0, id, artifacts, content, r);
    states, events := Transferred(states, events, s0, r, p);
    states, events := Recorded(states, events, s0, r, p.(phase := Logging(content.Keys)));
  }

  /**
   * From any initial state, every call with a valid identity, valid content and artifacts that can be
   * planned has an undisturbed run, and it ends with a usable, complete run.
   */
  lemma UndisturbedLogCompletes(s0: State, id: Identity, artifacts: seq<Upload.Artifact>, content: Content, r: string)
    returns (states: seq<State>, events: seq<Event>)
    requires Initial(s0) && RunId(r) && r !in s0.seen && Upload.Plannable(artifacts)
    requires ValidateIdentity(id).Ok? && SafeName(id.alias) && ValidContent(content)
    ensures Reached(states, events, s0, r, Producer(id, artifacts, content, Returned), false)
    ensures Complete(states[|events|], r)
  {
    states, events := UpToFinishing(s0, id, artifacts, content, r);
    var p := Producer(id, artifacts, content, Finishing);
    states, events := Extend(states, events, s0, r, p, false, Finish, Returned);
    FinishedMeansComplete(states, events, |events|, r);
  }
}
