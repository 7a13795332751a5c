/**
 * experiment_store/janitor.py, what a sweep is to find: the disposition of every run prefix, stated
 * over the bucket and the server's answers without the janitor's loops.
 */
module Sweep {
  import opened Paging
  import opened Layout
  import opened Ids
  import opened Tracking
  import opened S3

  const MIN_SCANNED_FOR_FRACTION := 5

  datatype Disposition = Orphaned | StillRunning | Keeper | NotAuthoritative

  /** `_classify`; `NotAuthoritative` stands for its abort. */
  function Classify(reply: Reply): Disposition {
    match reply
    case Raised(_, _) => if IsNotFound(reply) then Orphaned else NotAuthoritative
    case Found(info) =>
      if info.deleted then Orphaned
      else if info.status in {RUNNING, SCHEDULED} then StillRunning
      else if info.status == FINISHED then Keeper
      else Orphaned
  }

  /**
   * All a sweep looks at. The server may answer every query differently; each prefix is asked about
   * once, so a conversation is the canary's answer and a function of the prefix being judged.
   */
  datatype View = View(bucket: string, objects: Objects, canary: Reply, replies: string -> Reply,
                       now: Time, minAge: Time, staleAfter: Time)

  /** The two-segment prefixes that hold an object. */
  function RunPrefixes(objects: Objects): set<string> {
    set k | k in objects && Listed(k).Some? :: Listed(k).value
  }

  datatype Category = Recent | Foreign | Live | Stale | Owned | Held | Orphan | Unanswered

  /** Something under the prefix was written within the grace period. */
  ghost predicate WrittenLately(v: View, p: string) {
    exists k :: k in Under(v.objects, p) && v.objects[k].mtime.Some? &&
                v.now - v.objects[k].mtime.value < v.minAge
  }

  /** Something under the prefix is dated, and nothing was written within the stale window. */
  ghost predicate Silent(v: View, p: string) {
    (exists k :: k in Under(v.objects, p) && v.objects[k].mtime.Some?) &&
    (forall k :: k in Under(v.objects, p) && v.objects[k].mtime.Some? ==>
       v.now - v.objects[k].mtime.value > v.staleAfter)
  }

  ghost function CategoryOf(v: View, p: string): Category {
    if WrittenLately(v, p) then Recent
    else if !MatchesRunId(RunIdOf(p)) then Foreign
    else
      match Classify(v.replies(p))
      case NotAuthoritative => Unanswered
      case StillRunning => if Silent(v, p) then Stale else Live
      case Keeper => Owned
      case Orphaned => if ScanMarker(p) in Under(v.objects, p) then Held else Orphan
  }

  /** The URIs of the prefixes of one category, in the order of `ps`. */
  ghost function UrisOf(v: View, ps: seq<string>, c: Category): seq<string> {
    if ps == [] then []
    else
      var n := |ps| - 1;
      UrisOf(v, ps[..n], c) + if CategoryOf(v, ps[n]) == c then [Uri(v.bucket, ps[n])] else []
  }

  datatype SweepReport = SweepReport(
    scanned: nat, orphans: seq<string>, purged: seq<string>, kept: seq<string>,
    skippedRecent: seq<string>, skippedForeign: seq<string>, staleRunning: seq<string>,
    deletedObjects: nat)

  ghost function ReportOf(v: View, ps: seq<string>): SweepReport {
    SweepReport(|ps|, UrisOf(v, ps, Orphan), [], UrisOf(v, ps, Held), UrisOf(v, ps, Recent),
                UrisOf(v, ps, Foreign), UrisOf(v, ps, Stale), 0)
  }

  /** Every question the sweep put to the server was answered authoritatively. */
  ghost predicate Answered(v: View) {
    Classify(v.canary) != NotAuthoritative &&
    forall p :: p in RunPrefixes(v.objects) ==> CategoryOf(v, p) != Unanswered
  }

  function Considered(r: SweepReport): int { r.scanned - |r.skippedRecent| - |r.skippedForeign| }

  /** The circuit breaker. */
  predicate Trips(maxFraction: real, r: SweepReport) {
    Considered(r) >= MIN_SCANNED_FOR_FRACTION && |r.orphans| as real > maxFraction * (Considered(r) as real)
  }

  // ---- the lists ----

  lemma SameUri(bucket: string, p: string, q: string)
    ensures Uri(bucket, p) == Uri(bucket, q) ==> p == q
  {
    var head := "s3://" + bucket + "/";
    assert Uri(bucket, p) == head + p && Uri(bucket, q) == head + q;
    assert p == (head + p)[|head|..] && q == (head + q)[|head|..];
  }

  lemma {:induction false} ListedUris(v: View, ps: seq<string>, c: Category)
    requires NoDuplicates(ps)
    ensures NoDuplicates(UrisOf(v, ps, c))
    ensures forall u :: u in UrisOf(v, ps, c) <==>
                        exists p :: p in ps && CategoryOf(v, p) == c && u == Uri(v.bucket, p)
  {
    if ps != [] {
      var n := |ps| - 1;
      ListedUris(v, ps[..n], c);
      var us := UrisOf(v, ps[..n], c);
      assert ps == ps[..n] + [ps[n]];
      if CategoryOf(v, ps[n]) == c {
        forall u | u in us
          ensures u != Uri(v.bucket, ps[n])
        {
          var p :| p in ps[..n] && CategoryOf(v, p) == c && u == Uri(v.bucket, p);
          SameUri(v.bucket, p, ps[n]);
        }
        assert UrisOf(v, ps, c) == us + [Uri(v.bucket, ps[n])];
        assert forall i :: 0 <= i < |us| ==> us[i] in us;
      }
    }
  }

  /**
   * What the report of a sweep says: each list holds each prefix of its category once, and no prefix
   * is in two lists.
   */
  lemma ReportMeans(v: View, ps: seq<string>, c: Category)
    requires Lists(ps, RunPrefixes(v.objects))
    ensures |ps| == |RunPrefixes(v.objects)|
    ensures NoDuplicates(UrisOf(v, ps, c))
    ensures forall p :: Uri(v.bucket, p) in UrisOf(v, ps, c) <==>
                        p in RunPrefixes(v.objects) && CategoryOf(v, p) == c
    ensures forall c' :: c' != c ==> forall u :: u in UrisOf(v, ps, c) ==> u !in UrisOf(v, ps, c')
  {
    ListedSize(ps, RunPrefixes(v.objects));
    ListedUris(v, ps, c);
    forall p
      ensures Uri(v.bucket, p) in UrisOf(v, ps, c) <==> p in RunPrefixes(v.objects) && CategoryOf(v, p) == c
    {
      if Uri(v.bucket, p) in UrisOf(v, ps, c) {
        var q :| q in ps && CategoryOf(v, q) == c && Uri(v.bucket, p) == Uri(v.bucket, q);
        SameUri(v.bucket, p, q);
      }
    }
    forall c', u | c' != c && u in UrisOf(v, ps, c)
      ensures u !in UrisOf(v, ps, c')
    {
      ListedUris(v, ps, c');
      var p :| p in ps && CategoryOf(v, p) == c && u == Uri(v.bucket, p);
      forall q | q in ps && u == Uri(v.bucket, q)
        ensures CategoryOf(v, q) == c
      {
        SameUri(v.bucket, p, q);
      }
    }
  }

  /**
   * A run the server calls live is on no orphan list, and one that has been silent for a stale window
   * of at least the grace period is on the list of stale ones.
   */
  lemma SilentRunsAreReported(v: View, ps: seq<string>, p: string)
    requires Lists(ps, RunPrefixes(v.objects)) && p in RunPrefixes(v.objects)
    requires v.replies(p).Found? && !v.replies(p).info.deleted &&
             v.replies(p).info.status in {RUNNING, SCHEDULED}
    ensures Uri(v.bucket, p) !in ReportOf(v, ps).orphans && Uri(v.bucket, p) !in ReportOf(v, ps).kept
    ensures Silent(v, p) && MatchesRunId(RunIdOf(p)) && v.staleAfter >= v.minAge ==>
              Uri(v.bucket, p) in ReportOf(v, ps).staleRunning
  {
    ReportMeans(v, ps, Orphan);
    ReportMeans(v, ps, Held);
    ReportMeans(v, ps, Stale);
  }

  // ---- the breaker ----

  lemma {:induction false} ListsFitTheScan(v: View, ps: seq<string>)
    ensures |UrisOf(v, ps, Orphan)| + |UrisOf(v, ps, Recent)| + |UrisOf(v, ps, Foreign)| <= |ps|
  {
    if ps != [] {
      ListsFitTheScan(v, ps[..|ps| - 1]);
    }
  }

  /**
   * A sweep the breaker lets through purges at most `max(4, floor(fraction * considered))` prefixes;
   * a fraction of one or more never stops a sweep, nor does any fraction stop one without orphans.
   */
  lemma BreakerBound(v: View, ps: seq<string>, maxFraction: real)
    ensures var r := ReportOf(v, ps);
            |r.orphans| <= Considered(r) &&
            (!Trips(maxFraction, r) ==>
               |r.orphans| <= 4 || |r.orphans| <= (maxFraction * (Considered(r) as real)).Floor) &&
            (maxFraction >= 1.0 ==> !Trips(maxFraction, r)) &&
            (maxFraction >= 0.0 && r.orphans == [] ==> !Trips(maxFraction, r))
  {
    ListsFitTheScan(v, ps);
    BreakerOn(ReportOf(v, ps), maxFraction);
  }

  lemma BreakerOn(r: SweepReport, maxFraction: real)
    requires |r.orphans| <= Considered(r)
    ensures !Trips(maxFraction, r) ==>
              |r.orphans| <= 4 || |r.orphans| <= (maxFraction * (Considered(r) as real)).Floor
    ensures maxFraction >= 1.0 ==> !Trips(maxFraction, r)
    ensures maxFraction >= 0.0 && r.orphans == [] ==> !Trips(maxFraction, r)
  {
    FractionFacts(maxFraction, |r.orphans|, Considered(r));
  }

  lemma FractionFacts(f: real, n: nat, c: nat)
    requires n <= c
    ensures !(n as real > f * (c as real)) ==> n <= (f * (c as real)).Floor
    ensures f >= 1.0 ==> !(n as real > f * (c as real))
    ensures f >= 0.0 && n == 0 ==> !(n as real > f * (c as real))
  {
  }
}
