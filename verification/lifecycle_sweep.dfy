/** The transition system's sweep, left alone, is the sweep of the janitor's loops. */
module LifecycleSweep {
  import opened Wrappers
  import opened Paging
  import opened Layout
  import opened Ids
  import opened S3
  import opened Sweep
  import opened Lifecycle

  /** Steps of the system and the states between them, from anywhere. */
  ghost predicate IsPath(states: seq<State>, events: seq<Event>) {
    |states| == |events| + 1 &&
    forall i :: 0 <= i < |events| ==> Can(states[i], events[i]) && states[i + 1] == After(states[i], events[i])
  }

  /** A path of janitor steps alone, none of which cuts the sweep off, from `s` to `t`. */
  ghost predicate Sweeps(states: seq<State>, events: seq<Event>, s: State, t: State) {
    IsPath(states, events) && states[0] == s && states[|events|] == t &&
    forall e :: e in events ==> e.ByJanitor? && !e.sweep.Stop?
  }

  lemma Join(a: seq<State>, ea: seq<Event>, b: seq<State>, eb: seq<Event>, s: State, m: State, t: State)
    requires Sweeps(a, ea, s, m) && Sweeps(b, eb, m, t)
    ensures Sweeps(a + b[1..], ea + eb, s, t)
  {
    var c, ec := a + b[1..], ea + eb;
    forall i | 0 <= i < |ec|
      ensures Can(c[i], ec[i]) && c[i + 1] == After(c[i], ec[i])
    {
      if i >= |ea| {
        assert c[i] == b[i - |ea|] && c[i + 1] == b[i + 1 - |ea|];
      }
    }
  }

  lemma OneStep(s: State, step: JanitorStep)
    requires CanSweep(s, step) && !step.Stop?
    ensures Sweeps([s, AfterSweep(s, step)], [ByJanitor(step)], s, AfterSweep(s, step))
  {
  }

  /** The view looks at the state's own bucket, and the server answers from the state's index. */
  ghost predicate Watches(v: View, s: State) {
    v.bucket == s.bucket && v.objects == s.objects &&
    v.minAge == s.config.minAge && v.staleAfter == s.config.staleAfter &&
    forall p :: p in RunPrefixes(v.objects) ==> Authoritative(s, RunIdOf(p), v.replies(p))
  }

  function Uris(bucket: string, ps: seq<string>): seq<string> {
    seq(|ps|, i requires 0 <= i < |ps| => Uri(bucket, ps[i]))
  }

  /** The tally is the report on the prefixes `ps`. */
  ghost predicate Tallies(v: View, ps: seq<string>, tally: Tally) {
    tally.now == v.now && tally.scanned == |ps| &&
    tally.skipped == |UrisOf(v, ps, Recent)| + |UrisOf(v, ps, Foreign)| &&
    Uris(v.bucket, tally.orphans) == UrisOf(v, ps, Orphan)
  }

  function Counted(tally: Tally, c: Category, p: string): Tally {
    var counted := tally.(scanned := tally.scanned + 1);
    match c
    case Recent => counted.(skipped := tally.skipped + 1)
    case Foreign => counted.(skipped := tally.skipped + 1)
    case Orphan => counted.(orphans := tally.orphans + [p])
    case _ => counted
  }

  lemma TallyGrows(v: View, ps: seq<string>, p: string, tally: Tally)
    requires Tallies(v, ps, tally)
    ensures Tallies(v, ps + [p], Counted(tally, CategoryOf(v, p), p))
  {
  }

  lemma SameLately(s: State, v: View, p: string)
    requires Watches(v, s)
    ensures WrittenLately(SeenAt(s, v.now), p) <==> WrittenLately(v, p)
  {
  }

  lemma ScanFiles(s: State, v: View)
    requires Watches(v, s) && CanSweep(s, Scan) && s.janitor.tally.now == v.now
    requires s.janitor.todo[0] in RunPrefixes(v.objects)
    ensures var Sweeping(tally, todo) := s.janitor;
            var p := todo[0];
            AfterSweep(s, Scan) == s.(janitor :=
              if WrittenLately(v, p) || !MatchesRunId(RunIdOf(p)) then
                Sweeping(Counted(tally, CategoryOf(v, p), p), todo[1..])
              else
                Judging(tally.(scanned := tally.scanned + 1), p, ScanMarker(p) in Under(v.objects, p), todo[1..]))
  {
    var p := s.janitor.todo[0];
    SameLately(s, v, p);
    assert Under(s.objects, p) != {} by {
      var k :| k in v.objects && Listed(k).Some? && Listed(k).value == p;
      var _, _ := ListedShape(k);
      assert k in Under(s.objects, p);
    }
  }

  lemma JudgeFiles(s: State, v: View, tally: Tally, p: string, rest: seq<string>)
    requires s.janitor ==
             Judging(tally.(scanned := tally.scanned + 1), p, ScanMarker(p) in Under(v.objects, p), rest)
    requires !WrittenLately(v, p) && MatchesRunId(RunIdOf(p)) && CanSweep(s, Judge(v.replies(p)))
    ensures AfterSweep(s, Judge(v.replies(p))) == s.(janitor :=
              if CategoryOf(v, p) == Unanswered then Idle
              else Sweeping(Counted(tally, CategoryOf(v, p), p), rest))
  {
  }

  /** Scanning and judging one prefix files it as the report does, or aborts. */
  lemma FileOne(s: State, v: View) returns (states: seq<State>, events: seq<Event>, t: State)
    requires Watches(v, s) && CanSweep(s, Scan) && s.janitor.tally.now == v.now
    requires s.janitor.todo[0] in RunPrefixes(v.objects)
    ensures Sweeps(states, events, s, t)
    ensures var Sweeping(tally, todo) := s.janitor;
            t == s.(janitor := if CategoryOf(v, todo[0]) == Unanswered then Idle
                               else Sweeping(Counted(tally, CategoryOf(v, todo[0]), todo[0]), todo[1..]))
  {
    var Sweeping(tally, todo) := s.janitor;
    var p := todo[0];
    ScanFiles(s, v);
    var m := AfterSweep(s, Scan);
    OneStep(s, Scan);
    states, events, t := [s, m], [ByJanitor(Scan)], m;
    if m.janitor.Judging? {
      JudgeFiles(m, v, tally, p, todo[1..]);
      t := AfterSweep(m, Judge(v.replies(p)));
      OneStep(m, Judge(v.replies(p)));
      Join(states, events, [m, t], [ByJanitor(Judge(v.replies(p)))], s, m, t);
      states, events := states + [m, t][1..], events + [ByJanitor(Judge(v.replies(p)))];
    }
  }

  /** Where filing `todo` after `done` leads: an abort, or the tally of them all. */
  ghost predicate AllFiled(v: View, done: seq<string>, todo: seq<string>, j: JanitorPhase) {
    if exists p :: p in todo && CategoryOf(v, p) == Unanswered then j == Idle
    else j.Sweeping? && j.todo == [] && Tallies(v, done + todo, j.tally)
  }

  lemma OneMoreFiled(v: View, done: seq<string>, todo: seq<string>, j: JanitorPhase)
    requires todo != []
    requires if CategoryOf(v, todo[0]) == Unanswered then j == Idle
             else AllFiled(v, done + [todo[0]], todo[1..], j)
    ensures AllFiled(v, done, todo, j)
  {
    assert forall p :: p in todo <==> p == todo[0] || p in todo[1..];
    assert done + [todo[0]] + todo[1..] == done + todo;
  }

  lemma {:induction false} FileAll(s: State, v: View, done: seq<string>)
    returns (states: seq<State>, events: seq<Event>, t: State)
    requires Watches(v, s) && s.janitor.Sweeping? && Tallies(v, done, s.janitor.tally)
    requires forall p :: p in s.janitor.todo ==> p in RunPrefixes(v.objects)
    ensures Sweeps(states, events, s, t) && t == s.(janitor := t.janitor)
    ensures AllFiled(v, done, s.janitor.todo, t.janitor)
    decreases |s.janitor.todo|, 0
  {
    var todo := s.janitor.todo;
    if todo == [] {
      states, events, t := [s], [], s;
      assert done + todo == done;
    } else {
      var p := todo[0];
      TallyGrows(v, done, p, s.janitor.tally);
      var a, ea, m := FileOne(s, v);
      if CategoryOf(v, p) == Unanswered {
        states, events, t := a, ea, m;
      } else {
        states, events, t := FileRest(s, v, done + [p], a, ea, m);
      }
      OneMoreFiled(v, done, todo, t.janitor);
    }
  }

  lemma {:induction false} FileRest(s: State, v: View, done: seq<string>, a: seq<State>, ea: seq<Event>, m: State)
    returns (states: seq<State>, events: seq<Event>, t: State)
    requires Watches(v, s) && Sweeps(a, ea, s, m) && m == s.(janitor := m.janitor)
    requires m.janitor.Sweeping? && Tallies(v, done, m.janitor.tally)
    requires forall p :: p in m.janitor.todo ==> p in RunPrefixes(v.objects)
    ensures Sweeps(states, events, s, t) && t == s.(janitor := t.janitor)
    ensures AllFiled(v, done, m.janitor.todo, t.janitor)
    decreases |m.janitor.todo|, 1
  {
    var b, eb;
    assert Watches(v, m);
    b, eb, t := FileAll(m, v, done);
    Join(a, ea, b, eb, s, m, t);
    states, events := a + b[1..], ea + eb;
  }

  lemma SameBreaker(config: Config, v: View, ps: seq<string>, tally: Tally)
    requires Tallies(v, ps, tally)
    ensures BreakerTrips(config, tally) <==> Trips(config.maxFraction, ReportOf(v, ps))
  {
    SameNumbers(config, tally, ReportOf(v, ps));
  }

  lemma SameNumbers(config: Config, tally: Tally, report: SweepReport)
    requires tally.scanned - tally.skipped == Considered(report) && |tally.orphans| == |report.orphans|
    ensures BreakerTrips(config, tally) <==> Trips(config.maxFraction, report)
  {
  }

  lemma FilesAnyList(s: State, v: View, ps: seq<string>)
    returns (states: seq<State>, events: seq<Event>, t: State)
    requires Watches(v, s) && s.janitor == Listing(v.now) && CanSweep(s, Enumerate(ps))
    requires forall p :: p in ps ==> p in RunPrefixes(v.objects)
    ensures Sweeps(states, events, s, t) && t == s.(janitor := t.janitor)
    ensures if exists p :: p in ps && CategoryOf(v, p) == Unanswered then t.janitor == Idle
            else t.janitor.Sweeping? && t.janitor.todo == [] && Tallies(v, ps, t.janitor.tally)
  {
    var m := AfterSweep(s, Enumerate(ps));
    OneStep(s, Enumerate(ps));
    assert Tallies(v, [], m.janitor.tally);
    var b, eb;
    b, eb, t := FileAll(m, v, []);
    assert [] + ps == ps;
    Join([s, m], [ByJanitor(Enumerate(ps))], b, eb, s, m, t);
    states, events := [s, m] + b[1..], [ByJanitor(Enumerate(ps))] + eb;
  }

  lemma ListedItself(objects: Objects, p: string)
    requires p in RunPrefixes(objects)
    ensures Listed(p) == Some(p)
  {
    var k :| k in objects && Listed(k).Some? && Listed(k).value == p;
    var a, r := ListedShape(k);
    ListedOfRun(a, r, p);
  }

  /**
   * With nobody interfering, the janitor's steps from its listing on reach the verdict of the loops:
   * an abort when an answer is not authoritative or the breaker trips, and otherwise the orphans of
   * the report, in its order, about to be purged. Nothing has been deleted by then.
   */
  lemma SweepStepsReachTheReport(s: State, v: View, order: seq<string>)
    returns (states: seq<State>, events: seq<Event>, t: State)
    requires Watches(v, s) && s.janitor == Listing(v.now)
    requires Lists(order, RunPrefixes(v.objects))
    ensures Sweeps(states, events, s, t) && t == s.(janitor := t.janitor)
    ensures var report := ReportOf(v, order);
            if (exists p :: p in RunPrefixes(v.objects) && CategoryOf(v, p) == Unanswered) ||
               Trips(s.config.maxFraction, report)
            then t.janitor == Idle
            else t.janitor.Purging? && Uris(s.bucket, t.janitor.todo) == report.orphans
  {
    forall p | p in order
      ensures Listed(p) == Some(p)
    {
      ListedItself(v.objects, p);
    }
    var m;
    states, events, m := FilesAnyList(s, v, order);
    if m.janitor == Idle {
      t := m;
    } else {
      SameBreaker(s.config, v, order, m.janitor.tally);
      t := AfterSweep(m, Decide);
      OneStep(m, Decide);
      Join(states, events, [m, t], [ByJanitor(Decide)], s, m, t);
      states, events := states + [m, t][1..], events + [ByJanitor(Decide)];
    }
  }

  /**
   * The same from the start of a sweep: its first step is the canary, and if that is not answered
   * authoritatively, there is no second one.
   */
  lemma SweepStepsReachTheVerdict(s: State, v: View, order: seq<string>)
    returns (states: seq<State>, events: seq<Event>, t: State)
    requires Watches(v, s) && s.janitor == Idle && s.clock == v.now && Lists(order, RunPrefixes(v.objects))
    ensures Sweeps(states, events, s, t) && t == s.(janitor := t.janitor)
    ensures |events| >= 1 && events[0] == ByJanitor(Canary(v.canary))
    ensures Classify(v.canary) == NotAuthoritative ==> |events| == 1
    ensures if !Answered(v) || Trips(s.config.maxFraction, ReportOf(v, order)) then t.janitor == Idle
            else t.janitor.Purging? && Uris(s.bucket, t.janitor.todo) == ReportOf(v, order).orphans
  {
    var step := Canary(v.canary);
    var m := AfterSweep(s, step);
    OneStep(s, step);
    if Classify(v.canary) == NotAuthoritative {
      states, events, t := [s, m], [ByJanitor(step)], m;
    } else {
      var b, eb;
      b, eb, t := SweepStepsReachTheReport(m, v, order);
      Join([s, m], [ByJanitor(step)], b, eb, s, m, t);
      states, events := [s, m] + b[1..], [ByJanitor(step)] + eb;
    }
  }
}
