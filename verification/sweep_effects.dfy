/** What a sweep that returned has done, and what a second one would do. */
module SweepEffects {
  import opened Wrappers
  import opened Paging
  import opened Text
  import opened Layout
  import opened Ids
  import opened Tracking
  import opened S3
  import opened Sweep
  import opened Prefixes
  import opened Janitor

  /** A run prefix the view calls an orphan. */
  ghost predicate IsOrphan(v: View, p: string) {
    p in RunPrefixes(v.objects) && CategoryOf(v, p) == Orphan
  }

  /** Every orphan of the view is a prefix its own URI names. */
  ghost predicate TidyOrphans(v: View) {
    forall p :: IsOrphan(v, p) ==> Tidy(p)
  }

  /** The key stands under a prefix the view calls an orphan. */
  ghost predicate OrphanKey(v: View, k: string) {
    exists p :: IsOrphan(v, p) && p <= k
  }

  lemma ReachOfTidy(b: string, p: string)
    requires LegalBucket(b) && Tidy(p)
    ensures Reach(b, Uri(b, p)) == p
  {
    TargetOfPrefix(b, p);
  }

  /** The targets of a sweep are what the URIs of its orphans reach. */
  lemma TargetOfAnOrphan(v: View, order: seq<string>, t: string) returns (q: string)
    requires Lists(order, RunPrefixes(v.objects)) && t in Reaches(v.bucket, ReportOf(v, order).orphans)
    ensures IsOrphan(v, q) && t == Reach(v.bucket, Uri(v.bucket, q))
  {
    var orphans := ReportOf(v, order).orphans;
    var targets := Reaches(v.bucket, orphans);
    ListedUris(v, order, Orphan);
    var i :| 0 <= i < |targets| && targets[i] == t;
    assert orphans[i] in orphans;
    q :| q in order && CategoryOf(v, q) == Orphan && orphans[i] == Uri(v.bucket, q);
  }

  lemma TargetsAreTheOrphans(v: View, order: seq<string>)
    requires LegalBucket(v.bucket) && TidyOrphans(v) && Lists(order, RunPrefixes(v.objects))
    ensures forall t :: t in Reaches(v.bucket, ReportOf(v, order).orphans) <==>
                        IsOrphan(v, t)
  {
    forall t | t in Reaches(v.bucket, ReportOf(v, order).orphans)
      ensures IsOrphan(v, t)
    {
      var q := TargetOfAnOrphan(v, order, t);
      ReachOfTidy(v.bucket, q);
    }
    forall t | IsOrphan(v, t)
      ensures t in Reaches(v.bucket, ReportOf(v, order).orphans)
    {
      OrphanIsReached(v, order, t);
      ReachOfTidy(v.bucket, t);
    }
  }

  lemma HitMeansOrphanKey(v: View, order: seq<string>, k: string)
    requires LegalBucket(v.bucket) && TidyOrphans(v) && Lists(order, RunPrefixes(v.objects))
    ensures Hit(Reaches(v.bucket, ReportOf(v, order).orphans), k) <==> OrphanKey(v, k)
  {
    TargetsAreTheOrphans(v, order);
    var targets := Reaches(v.bucket, ReportOf(v, order).orphans);
    if OrphanKey(v, k) {
      var p :| IsOrphan(v, p) && p <= k;
      assert p in targets && p != "";
    }
    if Hit(targets, k) {
      var t :| t in targets && t != "" && t <= k;
      assert t in RunPrefixes(v.objects);
    }
  }

  lemma CountOfLost(before: Objects, after: Objects, gone: set<string>)
    requires forall k :: k in before <==> k in after || k in gone
    requires forall k :: k in gone ==> k !in after
    ensures |before| == |after| + |gone|
  {
    assert before.Keys == after.Keys + gone && after.Keys !! gone;
    assert |before.Keys| == |before| && |after.Keys| == |after|;
  }

  /** `after` is what is left of the view's bucket without the keys of its orphans. */
  ghost predicate WithoutOrphans(v: View, after: Objects) {
    (forall k :: k in after <==> k in v.objects && !OrphanKey(v, k)) &&
    (forall k :: k in after ==> after[k] == v.objects[k])
  }

  lemma PurgedOrphans(v: View, order: seq<string>, after: Objects)
    requires LegalBucket(v.bucket) && TidyOrphans(v) && Lists(order, RunPrefixes(v.objects))
    requires Purged(v.objects, after, Reaches(v.bucket, ReportOf(v, order).orphans))
    ensures WithoutOrphans(v, after)
  {
    forall k
      ensures k in after <==> k in v.objects && !OrphanKey(v, k)
    {
      HitMeansOrphanKey(v, order, k);
    }
  }

  lemma CountOfOrphans(v: View, after: Objects)
    requires WithoutOrphans(v, after)
    ensures |v.objects| - |after| == |set k | k in v.objects && OrphanKey(v, k)|
  {
    CountOfLost(v.objects, after, set k | k in v.objects && OrphanKey(v, k));
  }

  /**
   * An apply sweep that returns has removed exactly the keys under the prefixes it called orphans,
   * and counted them: every reported orphan prefix is empty and every other prefix is whole.
   */
  lemma SweptExactlyTheOrphans(v: View, order: seq<string>, maxFraction: real, after: Objects, r: SweepOutcome)
    requires LegalBucket(v.bucket) && TidyOrphans(v) && Lists(order, RunPrefixes(v.objects))
    requires Performed(v, ReportOf(v, order), true, maxFraction, after, r) && r.Swept?
    ensures WithoutOrphans(v, after)
    ensures r.report.deletedObjects == |set k | k in v.objects && OrphanKey(v, k)|
  {
    PurgedOrphans(v, order, after);
    CountOfOrphans(v, after);
  }

  lemma RunPrefixShape(objects: Objects, p: string) returns (a: string, r: string, k: string)
    requires p in RunPrefixes(objects)
    ensures SlashFree(a) && SlashFree(r) && p == RunPrefix(a, r) && k in Under(objects, p)
  {
    k :| k in objects && Listed(k).Some? && Listed(k).value == p;
    a, r := ListedShape(k);
  }

  lemma SamePrefix(objects: Objects, p: string, q: string, k: string)
    requires p in RunPrefixes(objects) && q in RunPrefixes(objects) && p <= k && q <= k
    ensures p == q
  {
    var a, r, _ := RunPrefixShape(objects, p);
    var a', r', _ := RunPrefixShape(objects, q);
    OnePrefixPerKey(a, r, a', r', k);
  }

  /** What is left keeps its disposition, for a disposition only looks under its own prefix. */
  lemma SurvivorsKeepTheirCategory(v: View, after: Objects, p: string)
    requires WithoutOrphans(v, after)
    requires p in RunPrefixes(after)
    ensures p in RunPrefixes(v.objects)
    ensures CategoryOf(v, p) != Orphan
    ensures CategoryOf(v.(objects := after), p) == CategoryOf(v, p)
  {
    var k0 :| k0 in after && Listed(k0).Some? && Listed(k0).value == p;
    assert k0 in v.objects;
    var _, _ := ListedShape(k0);
    assert !OrphanKey(v, k0);
    assert p <= k0;
    assert !IsOrphan(v, p);
    OtherOrphansSpare(v, p);
    SameCategory(v, v.(objects := after), p);
  }

  lemma OtherOrphansSpare(v: View, p: string)
    requires p in RunPrefixes(v.objects) && !IsOrphan(v, p)
    ensures forall k :: k in v.objects && p <= k ==> !OrphanKey(v, k)
  {
    forall k | k in v.objects && p <= k
      ensures !OrphanKey(v, k)
    {
      if OrphanKey(v, k) {
        var q :| IsOrphan(v, q) && q <= k;
        SamePrefix(v.objects, p, q, k);
      }
    }
  }

  lemma SameCategory(v: View, w: View, p: string)
    requires w == v.(objects := w.objects)
    requires Under(w.objects, p) == Under(v.objects, p)
    requires forall k :: k in Under(v.objects, p) ==> w.objects[k] == v.objects[k]
    ensures CategoryOf(w, p) == CategoryOf(v, p)
  {
  }

  lemma NoOrphanLeft(v: View, after: Objects, order': seq<string>)
    requires Answered(v) && WithoutOrphans(v, after) && Lists(order', RunPrefixes(after))
    ensures Answered(v.(objects := after))
    ensures ReportOf(v.(objects := after), order').orphans == []
  {
    var w := v.(objects := after);
    var us := UrisOf(w, order', Orphan);
    assert us != [] ==> us[0] in us;
    forall p | p in RunPrefixes(after)
      ensures CategoryOf(w, p) != Orphan && CategoryOf(w, p) != Unanswered
    {
      SurvivorsKeepTheirCategory(v, after, p);
    }
    ListedUris(w, order', Orphan);
  }

  lemma NothingToPurge(w: View, found: SweepReport, order: seq<string>, maxFraction: real,
                       after: Objects, r: SweepOutcome)
    requires found == ReportOf(w, order) && found.orphans == [] && maxFraction >= 0.0
    requires Performed(w, found, true, maxFraction, after, r)
    ensures r.Swept? && r.report.deletedObjects == 0 && after == w.objects
  {
    BreakerBound(w, order, maxFraction);
    assert forall k :: !Hit(Reaches(w.bucket, found.orphans), k);
    assert r.Swept? ==> after == w.objects;
  }

  // ---- what happens to prefixes that are not tidy ----

  const ABSENT := Raised(Some("RESOURCE_DOES_NOT_EXIST"), None)

  /**
   * A bucket with one object of a FINISHED run and one stray object, a day old both, and nothing else in
   * the index.
   */
  function StrayView(b: string, alias: string, runId: string, stray: string): View {
    View(b, map[RunPrefix(alias, runId) + "x" := Object([], Some(0.0)), stray := Object([], Some(0.0))], ABSENT,
         p => if p == RunPrefix(alias, runId) then Found(RunInfo(FINISHED, false, None, map[])) else ABSENT,
         86400.0, 21600.0, 604800.0)
  }

  /** The sweep keeps the run's own prefix and yet a sweep that returns has removed the run's object. */
  ghost predicate ReclaimsTheOwnedRun(v: View, alias: string, runId: string) {
    CategoryOf(v, RunPrefix(alias, runId)) == Owned &&
    forall order, after ::
      Lists(order, RunPrefixes(v.objects)) && Purged(v.objects, after, Reaches(v.bucket, ReportOf(v, order).orphans))
      ==> RunPrefix(alias, runId) + "x" !in after
  }

  lemma StrayCategories(b: string, alias: string, runId: string, stray: string, p: string)
    requires SafeName(alias) && RunId(runId)
    requires Listed(stray) == Some(p) && !(p <= RunPrefix(alias, runId) + "x")
    requires MatchesRunId(RunIdOf(p)) && ScanMarker(p) != stray
    ensures var v := StrayView(b, alias, runId, stray);
            IsOrphan(v, p) &&
            CategoryOf(v, RunPrefix(alias, runId)) == Owned
  {
    var v := StrayView(b, alias, runId, stray);
    RunKeysAreTidy(alias, runId);
    RunIdOfPrefix(alias, runId);
    StrayIsOld(b, alias, runId, stray);
    OwnedWhenKept(v, RunPrefix(alias, runId));
    NoMarkerUnder(b, alias, runId, stray, p);
    OrphanWhenAbsent(v, p);
  }

  lemma StrayIsOld(b: string, alias: string, runId: string, stray: string)
    ensures var v := StrayView(b, alias, runId, stray);
            stray in v.objects &&
            forall k :: k in v.objects && v.objects[k].mtime.Some? ==> v.now - v.objects[k].mtime.value >= v.minAge
  {
  }

  lemma NoMarkerUnder(b: string, alias: string, runId: string, stray: string, p: string)
    requires !(p <= RunPrefix(alias, runId) + "x") && ScanMarker(p) != stray
    ensures var v := StrayView(b, alias, runId, stray);
            ScanMarker(p) !in Under(v.objects, p) && p != RunPrefix(alias, runId)
  {
    assert RunPrefix(alias, runId) <= RunPrefix(alias, runId) + "x";
  }

  lemma OrphanWhenAbsent(v: View, p: string)
    requires forall k :: k in v.objects && v.objects[k].mtime.Some? ==> v.now - v.objects[k].mtime.value >= v.minAge
    requires MatchesRunId(RunIdOf(p)) && Classify(v.replies(p)) == Orphaned && ScanMarker(p) !in Under(v.objects, p)
    ensures CategoryOf(v, p) == Orphan
  {
  }

  lemma OwnedWhenKept(v: View, p: string)
    requires forall k :: k in v.objects && v.objects[k].mtime.Some? ==> v.now - v.objects[k].mtime.value >= v.minAge
    requires MatchesRunId(RunIdOf(p)) && Classify(v.replies(p)) == Keeper
    ensures CategoryOf(v, p) == Owned
  {
  }

  lemma StrayOrphanReclaims(b: string, alias: string, runId: string, stray: string, p: string)
    requires SafeName(alias) && RunId(runId)
    requires Listed(stray) == Some(p) && !(p <= RunPrefix(alias, runId) + "x")
    requires MatchesRunId(RunIdOf(p)) && ScanMarker(p) != stray
    requires Reach(b, Uri(b, p)) != "" && Reach(b, Uri(b, p)) <= RunPrefix(alias, runId) + "x"
    ensures ReclaimsTheOwnedRun(StrayView(b, alias, runId, stray), alias, runId)
  {
    var v := StrayView(b, alias, runId, stray);
    StrayCategories(b, alias, runId, stray, p);
    forall order, after |
      Lists(order, RunPrefixes(v.objects)) && Purged(v.objects, after, Reaches(v.bucket, ReportOf(v, order).orphans))
      ensures RunPrefix(alias, runId) + "x" !in after
    {
      OrphanIsReached(v, order, p);
      assert Hit(Reaches(v.bucket, ReportOf(v, order).orphans), RunPrefix(alias, runId) + "x");
    }
  }

  lemma OrphanIsReached(v: View, order: seq<string>, p: string)
    requires Lists(order, RunPrefixes(v.objects)) && IsOrphan(v, p)
    ensures Reach(v.bucket, Uri(v.bucket, p)) in Reaches(v.bucket, ReportOf(v, order).orphans)
  {
    ListedUris(v, order, Orphan);
    var orphans := UrisOf(v, order, Orphan);
    assert p in order && Uri(v.bucket, p) in orphans;
    var i :| 0 <= i < |orphans| && orphans[i] == Uri(v.bucket, p);
    assert Reaches(v.bucket, orphans)[i] == Reach(v.bucket, Uri(v.bucket, p));
  }

  lemma ReachOfPlain(b: string, p: string)
    requires LegalBucket(b) && forall c :: c in Without(p, UNSAFE) ==> c !in {'?', '#'}
    ensures Reach(b, Uri(b, p)) == StripLeading("/" + Without(p, UNSAFE), '/')
  {
    ParseOfUri(b, p);
    PathOfPlain("/" + Without(p, UNSAFE));
  }

  lemma StrayUnder(a: string, r: string)
    requires SlashFree(a) && SlashFree(r) && r != ""
    ensures Listed(RunPrefix(a, r) + "x") == Some(RunPrefix(a, r))
    ensures RunIdOf(RunPrefix(a, r)) == r
    ensures ScanMarker(RunPrefix(a, r)) != RunPrefix(a, r) + "x"
  {
    ListedOfRun(a, r, RunPrefix(a, r) + "x");
    RunIdOfPrefix(a, r);
    assert |ScanMarker(RunPrefix(a, r))| > |RunPrefix(a, r) + "x"|;
  }

  /**
   * A key that starts with a slash: its prefix `/<id>/` is judged by `<id>`, and its URI reaches the
   * whole of the alias `<id>`.
   */
  lemma LeadingSlashReclaimsAnOwnedRun(b: string, alias: string, runId: string)
    requires LegalBucket(b) && RunId(alias) && RunId(runId)
    ensures !Tidy(RunPrefix("", alias))
    ensures ReclaimsTheOwnedRun(StrayView(b, alias, runId, RunPrefix("", alias) + "x"), alias, runId)
  {
    StrayUnder("", alias);
    SlashIsDropped(b, alias);
    SlashShape(alias, runId);
    StrayOrphanReclaims(b, alias, runId, RunPrefix("", alias) + "x", RunPrefix("", alias));
  }

  lemma SlashShape(alias: string, runId: string)
    requires RunId(alias) && RunId(runId)
    ensures var p, own := RunPrefix("", alias), RunPrefix(alias, runId) + "x";
            SafeName(alias) && !Tidy(p) && !(p <= own) && alias + "/" <= own
  {
    var own := RunPrefix(alias, runId) + "x";
    assert alias[0] in alias;
    assert own == (alias + "/") + (runId + "/x");
    assert own[0] == alias[0] && RunPrefix("", alias)[0] == '/';
  }

  lemma SlashIsDropped(b: string, alias: string)
    requires LegalBucket(b) && RunId(alias)
    ensures Reach(b, Uri(b, RunPrefix("", alias))) == alias + "/"
  {
    var p := RunPrefix("", alias);
    var rest := alias + "/";
    assert p == ['/'] + rest;
    assert forall c :: c in p ==> c in alias || c == '/';
    WithoutKeeps(p, UNSAFE);
    ReachOfPlain(b, p);
    assert "/" + p == ['/'] + (['/'] + rest);
    StripOne('/', ['/'] + rest);
    StripOne('/', rest);
    assert rest[0] == alias[0] && alias[0] in alias;
  }

  /** A run id with a final newline: it is judged by itself, and its URI reaches the run without it. */
  lemma FinalNewlineReclaimsAnOwnedRun(b: string, alias: string, runId: string)
    requires LegalBucket(b) && SafeName(alias) && RunId(runId)
    ensures !Tidy(RunPrefix(alias, runId + "\n"))
    ensures ReclaimsTheOwnedRun(StrayView(b, alias, runId, RunPrefix(alias, runId + "\n") + "x"), alias, runId)
  {
    NewlineShape(alias, runId);
    var p := RunPrefix(alias, runId + "\n");
    NewlineOfAnId(alias, runId);
    RunKeysAreTidy(alias, runId);
    TidyPathSurvives(RunPrefix(alias, runId));
    ReachOfPlain(b, p);
    StrayOrphanReclaims(b, alias, runId, p + "x", p);
  }

  lemma NewlineShape(alias: string, runId: string)
    requires SafeName(alias) && RunId(runId)
    ensures var p := RunPrefix(alias, runId + "\n");
            !Tidy(p) && Listed(p + "x") == Some(p) && MatchesRunId(RunIdOf(p)) &&
            ScanMarker(p) != p + "x" && !(p <= RunPrefix(alias, runId) + "x")
  {
    var r := runId + "\n";
    var p := RunPrefix(alias, r);
    RunKeysAreTidy(alias, runId);
    StrayUnder(alias, r);
    assert BeforeFinalNewline(r) == runId;
    var at := |alias| + 1 + |runId|;
    assert p[at] == '\n' && p[at] in p;
    assert (RunPrefix(alias, runId) + "x")[at] == '/';
  }

  lemma NewlineOfAnId(alias: string, runId: string)
    requires SafeName(alias) && RunId(runId)
    ensures Without(RunPrefix(alias, runId + "\n"), UNSAFE) == RunPrefix(alias, runId)
  {
    var head := alias + "/" + runId;
    assert forall c :: c in head ==> c in alias || c == '/' || c in runId;
    NewlineIsDropped(head, "/");
    assert RunPrefix(alias, runId + "\n") == head + "\n" + "/";
  }
}
