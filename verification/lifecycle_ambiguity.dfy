/** Where completeness ends: a finishing call that takes effect and raises, and the marker's name. */
module LifecycleAmbiguity {
  import opened Layout
  import opened Ids
  import opened Tracking
  import opened S3
  import opened Lifecycle
  import opened LifecycleKeys
  import opened LifecycleFrames
  import opened LifecycleComplete
  import opened LifecycleProgress
  import Upload

  lemma Empties(states0: seq<State>, events0: seq<Event>, s0: State, r: string, p: Producer)
    returns (states: seq<State>, events: seq<Event>)
    requires Reached(states0, events0, s0, r, p, true) && p.phase.Cleaning? && SafeName(p.identity.alias) && RunId(r)
    requires LegalBucket(states0[|events0|].bucket)
    ensures Reached(states, events, s0, r, p.(phase := Deleting({})), true)
    ensures Under(states[|events|].objects, Prefix(r, p)) == {}
  {
    var own := Under(states0[|events0|].objects, Prefix(r, p));
    CleanupListsItsOwn(states0[|events0|], r);
    states, events := Extend(states0, events0, s0, r, p, true, CleanupList, Deleting(own));
    states, events := Extend(states, events, s0, r, p.(phase := Deleting(own)), true, CleanupDelete(own), Deleting({}));
  }

  lemma GivesUp(states0: seq<State>, events0: seq<Event>, s0: State, r: string, p: Producer)
    returns (states: seq<State>, events: seq<Event>)
    requires Reached(states0, events0, s0, r, p, true) && p.phase == Deleting({})
    ensures Reached(states, events, s0, r, p.(phase := RaisedOut(true, false)), true)
    ensures states[|events|].objects == states0[|events0|].objects
  {
    states, events := Extend(states0, events0, s0, r, p, true, CleanupDone, Failing(true));
    var q := p.(phase := Failing(true));
    states, events := Extend(states, events, s0, r, q, true, MarkRaised, RaisedOut(true, false));
  }

  /** The ambiguous finishing call itself loses nothing: until its cleanup lists, the run is complete. */
  lemma AmbiguityAloneLosesNothing(s0: State, id: Identity, artifacts: seq<Upload.Artifact>,
                                   content: Content, r: string)
    returns (states: seq<State>, events: seq<Event>)
    requires Initial(s0) && RunId(r) && r !in s0.seen && Upload.Plannable(artifacts)
    requires ValidateIdentity(id).Ok? && SafeName(id.alias) && ValidContent(content)
    ensures Reached(states, events, s0, r, Producer(id, artifacts, content, Cleaning), true)
    ensures Complete(states[|events|], r) && LegalBucket(states[|events|].bucket)
  {
    states, events := UpToFinishing(s0, id, artifacts, content, r);
    var p := Producer(id, artifacts, content, Finishing);
    states, events := Extend(states, events, s0, r, p, false, FinishAmbiguously, Cleaning);
    FinishedMeansComplete(states, events, |events|, r);
    NothingClearedWhileCleaning(states, events, |events|, r);
  }

  lemma NothingClearedWhileCleaning(states: seq<State>, events: seq<Event>, i: nat, r: string)
    requires IsRun(states, events) && i < |states|
    requires r in states[i].producers && !PastListing(states[i].producers[r].phase)
    ensures !Cleared(states[i], r) && LegalBucket(states[i].bucket)
  {
    AlwaysSound(states, events, i);
    forall x | x in PlanOf(r, states[i].producers[r])
      ensures x.key !in states[i].cleared
    {
      if x.key in states[i].cleared { ClearedIsPastListing(states[i], r, x); }
    }
  }

  /**
   * From any initial state and for any call that uploads something: a producer whose `set_terminated`
   * took effect but raised, whose cleanup then succeeded and whose `fail_run` was swallowed, leaves a
   * run that `resolve` returns and whose objects are all gone.
   */
  lemma AmbiguousFinishLosesTheArtifacts(s0: State, id: Identity, artifacts: seq<Upload.Artifact>,
                                         content: Content, r: string)
    returns (states: seq<State>, events: seq<Event>)
    requires Initial(s0) && RunId(r) && r !in s0.seen
    requires Upload.Plannable(artifacts) && Upload.AllFiles(artifacts) != []
    requires ValidateIdentity(id).Ok? && SafeName(id.alias) && ValidContent(content)
    ensures Reached(states, events, s0, r, Producer(id, artifacts, content, RaisedOut(true, false)), true)
    ensures var t := states[|events|];
            t.runs[r].Usable() && !Complete(t, r) && forall x :: x in PlanOf(r, t.producers[r]) ==> x.key !in t.objects
  {
    var p := Producer(id, artifacts, content, Cleaning);
    states, events := AmbiguityAloneLosesNothing(s0, id, artifacts, content, r);
    states, events := Empties(states, events, s0, r, p);
    states, events := GivesUp(states, events, s0, r, p.(phase := Deleting({})));
    var q := states[|events|].producers[r];
    NoneIsLeft(states[|events|].objects, r, q);
    assert PlanOf(r, q)[0] in PlanOf(r, q);
  }

  lemma NoneIsLeft(objects: Objects, r: string, p: Producer)
    requires SafeName(p.identity.alias) && RunId(r) && Under(objects, Prefix(r, p)) == {}
    ensures forall x :: x in PlanOf(r, p) ==> x.key !in objects
  {
    forall i | 0 <= i < |PlanOf(r, p)|
      ensures PlanOf(r, p)[i].key !in objects
    {
      PlannedKeysAreOwn(r, p, i);
      assert PlanOf(r, p)[i].key !in Under(objects, Prefix(r, p));
    }
  }

  // ---- the marker's name ----

  lemma PlannedMarker(r: string, p: Producer, f: Upload.LocalFile)
    requires SafeName(p.identity.alias) && RunId(r) && f in Upload.AllFiles(p.artifacts) && f.rel == RETENTION_MARKER
    ensures Upload.Planned(Marker(r, p), f.data) in PlanOf(r, p)
  {
    RunKeysAreTidy(p.identity.alias, r);
    RunIdOfPrefix(p.identity.alias, r);
    var i :| 0 <= i < |Upload.AllFiles(p.artifacts)| && Upload.AllFiles(p.artifacts)[i] == f;
    assert PlanOf(r, p)[i] == Upload.Planned(Marker(r, p), f.data);
  }

  /** A hold of a finished run with an artifact of the marker's name. */
  lemma HoldOverwrites(s: State, r: string, f: Upload.LocalFile)
    requires Keyed(s) && r in s.producers && r in s.runs && s.runs[r].ArtifactsUri().Some?
    requires f in Upload.AllFiles(s.producers[r].artifacts) && f.rel == RETENTION_MARKER && f.data != []
    ensures CanCall(s, r, Hold)
    ensures var t := AfterCall(s, r, Hold);
            var x := Upload.Planned(Marker(r, s.producers[r]), f.data);
            t.producers == s.producers && t.runs == s.runs && t.purgeBegun == s.purgeBegun && !Complete(t, r) &&
            x in PlanOf(r, s.producers[r]) && x.key in t.objects && t.objects[x.key].data == []
  {
    assert ProducerKeyed(s, r);
    MarkerOfRun(s, r);
    HoldWritesTheMarker(s, r);
    PlannedMarker(r, s.producers[r], f);
  }

  lemma KeyedAt(states: seq<State>, events: seq<Event>, i: nat)
    requires IsRun(states, events) && i < |states|
    ensures Keyed(states[i])
  {
    AlwaysSound(states, events, i);
  }

  /**
   * From any initial state and for any call with a non-empty artifact of the marker's name: `log`
   * returns, the run is complete, and the first `hold` leaves that artifact stored without its bytes.
   */
  lemma HoldEmptiesAnArtifact(s0: State, id: Identity, artifacts: seq<Upload.Artifact>, content: Content, r: string,
                              f: Upload.LocalFile)
    returns (states: seq<State>, events: seq<Event>)
    requires Initial(s0) && RunId(r) && r !in s0.seen && Upload.Plannable(artifacts)
    requires ValidateIdentity(id).Ok? && SafeName(id.alias) && ValidContent(content)
    requires f in Upload.AllFiles(artifacts) && f.rel == RETENTION_MARKER && f.data != []
    ensures IsRun(states, events) && states[0] == s0 && |events| > 0 && events[|events| - 1] == ByClient(r, Hold)
    ensures var s, t := states[|events| - 1], states[|events|];
            Stands(s, r, Producer(id, artifacts, content, Returned), false) && Complete(s, r) &&
            t.producers == s.producers && t.runs == s.runs && r !in t.purgeBegun && !Complete(t, r)
    ensures var t := states[|events|];
            var x := Upload.Planned(Marker(r, t.producers[r]), f.data);
            x in PlanOf(r, t.producers[r]) && x.key in t.objects && t.objects[x.key].data == [] != x.data
  {
    var states0, events0 := UndisturbedLogCompletes(s0, id, artifacts, content, r);
    var s := states0[|events0|];
    KeyedAt(states0, events0, |events0|);
    HoldOverwrites(s, r, f);
    states, events := Step(states0, events0, ByClient(r, Hold));
    assert states[|events| - 1] == s;
  }
}
