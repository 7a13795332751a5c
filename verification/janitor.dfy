/** experiment_store/janitor.py: the janitor itself. */
module Janitor {
  import opened Wrappers
  import opened Paging
  import opened Text
  import opened Layout
  import opened Ids
  import opened Tracking
  import opened S3
  import opened Sweep
  import opened Prefixes

  datatype PrefixScan = PrefixScan(newest: Option<Time>, hasMarker: bool, empty: bool)

  /** What one scan of the keys `seen` under a prefix has found. */
  ghost predicate ScanOf(objects: Objects, marker: string, seen: set<string>, scan: PrefixScan)
    requires forall k :: k in seen ==> k in objects
  {
    (scan.empty <==> seen == {}) &&
    (scan.hasMarker <==> marker in seen) &&
    (scan.newest.None? ==> forall k :: k in seen ==> objects[k].mtime.None?) &&
    (scan.newest.Some? ==>
       (exists k :: k in seen && objects[k].mtime == scan.newest) &&
       (forall k :: k in seen && objects[k].mtime.Some? ==> objects[k].mtime.value <= scan.newest.value))
  }

  /** The prefixes of the listed keys whose first segment is among `tops`. */
  function RunPrefixesIn(objects: Objects, tops: seq<string>): set<string> {
    set k | k in objects && Listed(k).Some? && k[..IndexOf(k, '/') + 1] in tops :: Listed(k).value
  }

  /** One delimiter listing below a first segment reports that segment's run prefixes. */
  lemma SecondLevel(objects: Objects, top: string)
    requires top in CommonPrefixes(objects, "")
    ensures CommonPrefixes(objects, top) == RunPrefixesIn(objects, [top])
  {
    var k0 :| k0 in objects && '/' in k0[0..] && top == UpToSlash("", k0);
    assert k0[0..] == k0;
    forall k | k in objects
      ensures SeenBelow(top, k)
    {
      SameTop(k0, k, top);
    }
    BelowIsRunPrefix(objects, top);
  }

  /** A delimiter listing below `top` shows a key under the prefix the two-level enumeration has for it. */
  predicate SeenBelow(top: string, k: string) {
    (top <= k && '/' in k[|top|..] <==> Listed(k).Some? && k[..IndexOf(k, '/') + 1] == top) &&
    (top <= k && '/' in k[|top|..] ==> UpToSlash(top, k) == Listed(k).value)
  }

  lemma BelowIsRunPrefix(objects: Objects, top: string)
    requires forall k :: k in objects ==> SeenBelow(top, k)
    ensures CommonPrefixes(objects, top) == RunPrefixesIn(objects, [top])
  {
  }

  lemma SameTop(k0: string, k: string, top: string)
    requires '/' in k0 && top == k0[..IndexOf(k0, '/') + 1]
    ensures SeenBelow(top, k)
  {
    var n := IndexOf(k0, '/');
    if top <= k {
      assert forall j :: 0 <= j < n ==> k[j] == k0[j];
      assert k[n] == '/';
      assert IndexOf(k, '/') == n;
      assert k[..n + 1] == top;
    }
  }

  lemma EveryRunPrefixHasATop(objects: Objects, tops: seq<string>)
    requires Lists(tops, CommonPrefixes(objects, ""))
    ensures RunPrefixesIn(objects, tops) == RunPrefixes(objects)
  {
  }

  lemma TopsOfListed(objects: Objects, tops: seq<string>)
    ensures forall p :: p in RunPrefixesIn(objects, tops) ==> '/' in p && p[..IndexOf(p, '/') + 1] in tops
  {
    forall k | k in objects && Listed(k).Some? && k[..IndexOf(k, '/') + 1] in tops
      ensures var p := Listed(k).value; '/' in p && p[..IndexOf(p, '/') + 1] in tops
    {
      TopOfListed(k, Listed(k).value);
    }
  }

  lemma ApartByTop(objects: Objects, tops: seq<string>, top: string)
    requires top !in tops
    ensures RunPrefixesIn(objects, tops) !! RunPrefixesIn(objects, [top])
    ensures RunPrefixesIn(objects, tops + [top]) ==
            RunPrefixesIn(objects, tops) + RunPrefixesIn(objects, [top])
  {
    TopsOfListed(objects, tops);
    TopsOfListed(objects, [top]);
  }

  lemma TopOfListed(k: string, p: string)
    requires Listed(k) == Some(p)
    ensures '/' in p && k[..IndexOf(k, '/') + 1] == p[..IndexOf(p, '/') + 1]
  {
    var a, r := ListedShape(k);
    ListedOfRun(a, r, k);
    ListedOfRun(a, r, p);
    assert p[|a|] == '/';
    HeadsAgree(p, k, |a| + 1);
  }

  lemma HeadsAgree(p: string, k: string, n: nat)
    requires p <= k && n <= |p|
    ensures p[..n] == k[..n]
  {
  }

  lemma JoinLists<T(!new)>(xs: seq<T>, a: set<T>, ys: seq<T>, b: set<T>)
    requires Lists(xs, a) && Lists(ys, b) && a !! b
    ensures Lists(xs + ys, a + b)
  {
    var zs := xs + ys;
    forall i, j | 0 <= i < j < |zs|
      ensures zs[i] != zs[j]
    {
      if i < |xs| <= j {
        assert zs[i] in xs && zs[j] in ys;
      }
    }
  }

  datatype SweepOutcome = Aborted | Broke(error: PrefixError) | Swept(report: SweepReport)

  /** The key `delete_prefix` empties when it is handed a URI; empty when it refuses the URI. */
  function Reach(bucket: string, uri: string): string {
    match Target(bucket, uri)
    case Ok(t) => t
    case Err(_) => ""
  }

  function Reaches(bucket: string, uris: seq<string>): (ts: seq<string>)
    ensures |ts| == |uris|
  {
    seq(|uris|, i requires 0 <= i < |uris| => Reach(bucket, uris[i]))
  }

  predicate Hit(targets: seq<string>, key: string) {
    exists t :: t in targets && t != "" && t <= key
  }

  function HitKeys(objects: Objects, targets: seq<string>): set<string> {
    set k | k in objects && Hit(targets, k)
  }

  /** `delete_prefix`, told by what the URI reaches. */
  method DeleteByUri(s3: S3Client, uri: string) returns (r: Result<nat, PrefixError>)
    modifies s3`objects, s3`failures
    ensures OnlyLost(old(s3.objects), s3.objects, HitKeys(old(s3.objects), [Reach(s3.bucket, uri)]))
    ensures r.Ok? <==> Reach(s3.bucket, uri) != "" && s3.failures == old(s3.failures)
    ensures r.Ok? ==> var t := Reach(s3.bucket, uri);
                      t != "" && Under(s3.objects, t) == {} && r.value == |Under(old(s3.objects), t)|
  {
    ghost var t := Reach(s3.bucket, uri);
    ghost var before := s3.objects;
    r := DeletePrefix(s3, uri);
    assert t != "" ==> HitKeys(before, [t]) == Under(before, t) by {
      assert t in [t];
    }
  }

  class Janitor {
    const s3: S3Client
    const canary: Reply
    /** The answer to the query made for a prefix. */
    const replies: string -> Reply
    const now: Time
    const minAge: Time
    const maxFraction: real
    const staleAfter: Time

    constructor (s3: S3Client, canary: Reply, replies: string -> Reply, now: Time,
                 minAge: Time, maxFraction: real, staleAfter: Time)
      ensures this.s3 == s3 && this.canary == canary && this.replies == replies && this.now == now
      ensures this.minAge == minAge && this.maxFraction == maxFraction && this.staleAfter == staleAfter
    {
      this.s3, this.canary, this.replies, this.now := s3, canary, replies, now;
      this.minAge, this.maxFraction, this.staleAfter := minAge, maxFraction, staleAfter;
    }

    function Sees(objects: Objects): View {
      View(s3.bucket, objects, canary, replies, now, minAge, staleAfter)
    }

    /** `_common_prefixes` */
    method ListCommonPrefixes(prefix: string) returns (out: seq<string>)
      ensures Lists(out, CommonPrefixes(s3.objects, prefix))
    {
      var page := s3.ListDelimited(prefix, None);
      ghost var all := page.items + Owed(page.next);
      out := page.items;
      while page.next.Some?
        invariant out + Owed(page.next) == all
        decreases if page.next.Some? then 1 + |page.next.value.rest| + page.next.value.idle else 0
      {
        page := s3.ListDelimited(prefix, page.next);
        out := out + page.items;
      }
      assert out == all;
    }

    /** `_list_run_prefixes` */
    method ListRunPrefixes() returns (prefixes: seq<string>)
      ensures Lists(prefixes, RunPrefixes(s3.objects))
    {
      var tops := ListCommonPrefixes("");
      prefixes := [];
      for i := 0 to |tops|
        invariant Lists(prefixes, RunPrefixesIn(s3.objects, tops[..i]))
      {
        var below := ListCommonPrefixes(tops[i]);
        SecondLevel(s3.objects, tops[i]);
        assert tops[i] !in tops[..i];
        assert tops[..i + 1] == tops[..i] + [tops[i]];
        ApartByTop(s3.objects, tops[..i], tops[i]);
        JoinLists(prefixes, RunPrefixesIn(s3.objects, tops[..i]), below, RunPrefixesIn(s3.objects, [tops[i]]));
        prefixes := prefixes + below;
      }
      assert tops[..|tops|] == tops;
      EveryRunPrefixHasATop(s3.objects, tops);
    }

    /** `_scan_prefix` */
    method ScanPrefix(runPrefix: string) returns (scan: PrefixScan)
      ensures ScanOf(s3.objects, ScanMarker(runPrefix), Under(s3.objects, runPrefix), scan)
    {
      scan := PrefixScan(None, false, true);
      ghost var seen: set<string> := {};
      var page := s3.ListObjects(runPrefix, None);
      ghost var all := page.items + Owed(page.next);
      assert forall k :: k in page.items ==> k in all;
      scan, seen := ScanPage(page.items, ScanMarker(runPrefix), scan, seen);
      while page.next.Some?
        invariant seen <= Under(s3.objects, runPrefix) && forall k :: k in Owed(page.next) ==> k in all
        invariant forall k :: k in all ==> k in seen || k in Owed(page.next)
        invariant ScanOf(s3.objects, ScanMarker(runPrefix), seen, scan)
        decreases if page.next.Some? then 1 + |page.next.value.rest| + page.next.value.idle else 0
      {
        ghost var owed := Owed(page.next);
        page := s3.ListObjects(runPrefix, page.next);
        assert forall k :: k in page.items ==> k in owed && k in all;
        assert forall k :: k in Owed(page.next) ==> k in owed;
        scan, seen := ScanPage(page.items, ScanMarker(runPrefix), scan, seen);
      }
      assert seen == Under(s3.objects, runPrefix);
    }

    /** The body of the scan loop for one page. */
    method ScanPage(items: seq<string>, marker: string, scan0: PrefixScan, ghost seen0: set<string>)
      returns (scan: PrefixScan, ghost seen: set<string>)
      requires forall k :: k in items || k in seen0 ==> k in s3.objects
      requires ScanOf(s3.objects, marker, seen0, scan0)
      ensures seen == seen0 + set k | k in items
      ensures ScanOf(s3.objects, marker, seen, scan)
    {
      scan, seen := scan0, seen0;
      for i := 0 to |items|
        invariant seen == seen0 + set k | k in items[..i]
        invariant ScanOf(s3.objects, marker, seen, scan)
      {
        var key := items[i];
        var mtime := s3.objects[key].mtime;
        ObserveOne(s3.objects, marker, seen, scan, key);
        scan := PrefixScan(
          if mtime.Some? && (scan.newest.None? || mtime.value > scan.newest.value) then mtime else scan.newest,
          scan.hasMarker || key == marker,
          false);
        seen := seen + {key};
        assert items[..i + 1] == items[..i] + [key];
      }
      assert items[..|items|] == items;
    }

    /** The body of the loop of `find_orphans` for one prefix; `None` is the abort. */
    method FilePrefix(report: SweepReport, p: string) returns (r: Option<SweepReport>)
      requires p in RunPrefixes(s3.objects)
      ensures var v := Sees(s3.objects);
              if CategoryOf(v, p) == Unanswered then r == None
              else r == Some(Filed(report, CategoryOf(v, p), Uri(s3.bucket, p)))
    {
      var uri := Uri(s3.bucket, p);
      var counted := report.(scanned := report.scanned + 1);
      var scan := ScanPrefix(p);
      ScanDecides(Sees(s3.objects), p, scan);
      if scan.empty {
        return Some(counted);
      }
      if scan.newest.Some? && now - scan.newest.value < minAge {
        return Some(counted.(skippedRecent := report.skippedRecent + [uri]));
      }
      if !MatchesRunId(RunIdOf(p)) {
        return Some(counted.(skippedForeign := report.skippedForeign + [uri]));
      }
      r := FileJudged(report, p, scan);
    }

    /** What follows the query for a settled prefix with a run id. */
    method FileJudged(report: SweepReport, p: string, scan: PrefixScan) returns (r: Option<SweepReport>)
      requires p in RunPrefixes(s3.objects)
      requires ScanOf(s3.objects, ScanMarker(p), Under(s3.objects, p), scan)
      requires MatchesRunId(RunIdOf(p)) && !(scan.newest.Some? && now - scan.newest.value < minAge)
      ensures var v := Sees(s3.objects);
              if CategoryOf(v, p) == Unanswered then r == None
              else r == Some(Filed(report, CategoryOf(v, p), Uri(s3.bucket, p)))
    {
      var uri := Uri(s3.bucket, p);
      var counted := report.(scanned := report.scanned + 1);
      ScanDecides(Sees(s3.objects), p, scan);
      match Classify(replies(p)) {
        case NotAuthoritative =>
          r := None;
        case StillRunning =>
          if scan.newest.Some? && now - scan.newest.value > staleAfter {
            r := Some(counted.(staleRunning := report.staleRunning + [uri]));
          } else {
            r := Some(counted);
          }
        case Keeper =>
          r := Some(counted);
        case Orphaned =>
          if scan.hasMarker {
            r := Some(counted.(kept := report.kept + [uri]));
          } else {
            r := Some(counted.(orphans := report.orphans + [uri]));
          }
      }
    }

    /** `find_orphans`; `None` is its abort. `order` is the order the prefixes were listed in. */
    method FindOrphans() returns (r: Option<SweepReport>, ghost order: seq<string>)
      ensures r.Some? <==> Answered(Sees(s3.objects))
      ensures r.Some? ==> Lists(order, RunPrefixes(s3.objects)) && r.value == ReportOf(Sees(s3.objects), order)
    {
      ghost var v := Sees(s3.objects);
      order := [];
      if canary.Raised? && !IsNotFound(canary) {
        return None, order;
      }
      var prefixes := ListRunPrefixes();
      order := prefixes;
      var report := SweepReport(0, [], [], [], [], [], [], 0);
      for i := 0 to |prefixes|
        invariant report == ReportOf(v, prefixes[..i])
        invariant forall p :: p in prefixes[..i] ==> CategoryOf(v, p) != Unanswered
      {
        assert prefixes[i] in prefixes;
        assert prefixes[..i + 1] == prefixes[..i] + [prefixes[i]];
        ReportGrows(v, prefixes[..i], prefixes[i]);
        var filed := FilePrefix(report, prefixes[i]);
        if filed.None? {
          return None, order;
        }
        report := filed.value;
      }
      assert prefixes[..|prefixes|] == prefixes;
      r := Some(report);
    }

    /** The purging loop of `sweep`. */
    method PurgeAll(uris: seq<string>) returns (r: Result<nat, PrefixError>)
      modifies s3`objects, s3`failures
      ensures r.Ok? <==> "" !in Reaches(s3.bucket, uris) && s3.failures == old(s3.failures)
      ensures r.Ok? ==> Purged(old(s3.objects), s3.objects, Reaches(s3.bucket, uris)) &&
                        r.value == |old(s3.objects)| - |s3.objects|
      ensures r.Err? ==> exists i :: BrokeAt(old(s3.objects), s3.objects, Reaches(s3.bucket, uris), i)
      ensures r.Err? ==> uris != [] &&
                         OnlyLost(old(s3.objects), s3.objects,
                                  HitKeys(old(s3.objects), Reaches(s3.bucket, uris)))
    {
      ghost var first := s3.objects;
      ghost var ts := Reaches(s3.bucket, uris);
      var deleted := 0;
      for i := 0 to |uris|
        invariant Purged(first, s3.objects, ts[..i])
        invariant deleted == |first| - |s3.objects| && s3.failures == old(s3.failures)
      {
        ghost var before := s3.objects;
        assert ts[i] == Reach(s3.bucket, uris[i]);
        var one := DeleteByUri(s3, uris[i]);
        if one.Err? {
          BrokenOff(first, before, s3.objects, ts, i);
          BrokeThere(first, before, s3.objects, ts, i);
          return Err(one.error);
        }
        NextPurged(first, before, s3.objects, ts, i);
        deleted := deleted + one.value;
      }
      assert ts[..|uris|] == ts;
      r := Ok(deleted);
    }

    /** `sweep` */
    method Sweep(apply: bool) returns (r: SweepOutcome, ghost order: seq<string>)
      modifies s3`objects, s3`failures
      ensures var v := Sees(old(s3.objects));
              (!Answered(v) ==> r == Aborted) &&
              (Answered(v) ==>
                 Lists(order, RunPrefixes(v.objects)) &&
                 Performed(v, ReportOf(v, order), apply, maxFraction, s3.objects, r))
      ensures r.Aborted? || !apply ==> s3.objects == old(s3.objects)
      ensures var v := Sees(old(s3.objects));
              r.Broke? <==> Answered(v) && apply && !Trips(maxFraction, ReportOf(v, order)) &&
                            ("" in Reaches(v.bucket, ReportOf(v, order).orphans) || s3.failures != old(s3.failures))
    {
      var found;
      found, order := FindOrphans();
      if found.None? {
        return Aborted, order;
      }
      var report := found.value;
      if !apply {
        return Swept(report), order;
      }
      if Trips(maxFraction, report) {
        return Aborted, order;
      }
      var deleted := PurgeAll(report.orphans);
      if deleted.Err? {
        return Broke(deleted.error), order;
      }
      r := Swept(report.(purged := report.orphans, deletedObjects := deleted.value));
    }
  }

  /** What a sweep makes of the report `found` and of the bucket `v.objects`. */
  ghost predicate Performed(v: View, found: SweepReport, apply: bool, maxFraction: real,
                            after: Objects, r: SweepOutcome)
  {
    var targets := Reaches(v.bucket, found.orphans);
    (!apply ==> r == Swept(found)) &&
    (apply ==> (r == Aborted <==> Trips(maxFraction, found))) &&
    (apply && r.Swept? ==>
       Purged(v.objects, after, targets) && |after| <= |v.objects| &&
       r.report == found.(purged := found.orphans, deletedObjects := |v.objects| - |after|)) &&
    (r.Broke? ==> apply && found.orphans != [] && OnlyLost(v.objects, after, HitKeys(v.objects, targets)))
  }

  ghost function Filed(report: SweepReport, c: Category, uri: string): SweepReport {
    var counted := report.(scanned := report.scanned + 1);
    match c
    case Recent => counted.(skippedRecent := report.skippedRecent + [uri])
    case Foreign => counted.(skippedForeign := report.skippedForeign + [uri])
    case Stale => counted.(staleRunning := report.staleRunning + [uri])
    case Held => counted.(kept := report.kept + [uri])
    case Orphan => counted.(orphans := report.orphans + [uri])
    case _ => counted
  }

  lemma ReportGrows(v: View, ps: seq<string>, p: string)
    ensures ReportOf(v, ps + [p]) == Filed(ReportOf(v, ps), CategoryOf(v, p), Uri(v.bucket, p))
  {
  }

  lemma ScanDecides(v: View, p: string, scan: PrefixScan)
    requires p in RunPrefixes(v.objects)
    requires ScanOf(v.objects, ScanMarker(p), Under(v.objects, p), scan)
    ensures !scan.empty
    ensures WrittenLately(v, p) <==> scan.newest.Some? && v.now - scan.newest.value < v.minAge
    ensures Silent(v, p) <==> scan.newest.Some? && v.now - scan.newest.value > v.staleAfter
  {
  }

  /** `after` is `before` without the keys under the targets, none of which was refused. */
  ghost predicate Purged(before: Objects, after: Objects, targets: seq<string>) {
    "" !in targets &&
    (forall k :: k in after <==> k in before && !Hit(targets, k)) &&
    (forall k :: k in after ==> after[k] == before[k])
  }

  lemma OneMorePurged(first: Objects, before: Objects, after: Objects, targets: seq<string>, t: string)
    requires Purged(first, before, targets) && t != ""
    requires OnlyLost(before, after, HitKeys(before, [t])) && Under(after, t) == {}
    ensures Purged(first, after, targets + [t])
    ensures |before| - |after| == |Under(before, t)|
  {
    assert forall k :: k in after ==> k !in Under(after, t);
    assert forall k :: Hit(targets + [t], k) <==> Hit(targets, k) || t <= k by {
      assert t in targets + [t];
      assert forall u :: u in targets + [t] <==> u in targets || u == t;
    }
    assert after.Keys == before.Keys - Under(before, t);
    assert |before.Keys| == |before| && |after.Keys| == |after|;
  }

  lemma NextPurged(first: Objects, before: Objects, after: Objects, targets: seq<string>, i: nat)
    requires i < |targets| && targets[i] != "" && Purged(first, before, targets[..i])
    requires OnlyLost(before, after, HitKeys(before, [targets[i]])) && Under(after, targets[i]) == {}
    ensures Purged(first, after, targets[..i + 1])
    ensures |before| - |after| == |Under(before, targets[i])|
  {
    OneMorePurged(first, before, after, targets[..i], targets[i]);
    assert targets[..i + 1] == targets[..i] + [targets[i]];
  }

  /** A purge broken off at the i-th target has emptied those before it and none behind it. */
  ghost predicate BrokeAt(before: Objects, after: Objects, targets: seq<string>, i: nat) {
    i < |targets| && "" !in targets[..i] && OnlyLost(before, after, HitKeys(before, targets[..i + 1])) &&
    forall k :: k in after ==> !Hit(targets[..i], k)
  }

  lemma BrokeThere(first: Objects, before: Objects, after: Objects, targets: seq<string>, i: nat)
    requires i < |targets| && Purged(first, before, targets[..i])
    requires OnlyLost(before, after, HitKeys(before, [targets[i]]))
    ensures BrokeAt(first, after, targets, i)
  {
    var now := targets[..i + 1];
    assert now[..i] == targets[..i];
    BrokenOff(first, before, after, now, i);
  }

  lemma BrokenOff(first: Objects, before: Objects, after: Objects, targets: seq<string>, i: nat)
    requires i < |targets| && Purged(first, before, targets[..i])
    requires OnlyLost(before, after, HitKeys(before, [targets[i]]))
    ensures OnlyLost(first, after, HitKeys(first, targets))
  {
    assert forall u :: u in targets[..i] || u in [targets[i]] ==> u in targets;
    assert forall k :: Hit(targets[..i], k) || Hit([targets[i]], k) ==> Hit(targets, k);
  }

  lemma ObserveOne(objects: Objects, marker: string, seen: set<string>, scan: PrefixScan, key: string)
    requires key in objects && forall k :: k in seen ==> k in objects
    requires ScanOf(objects, marker, seen, scan)
    ensures var mtime := objects[key].mtime;
            ScanOf(objects, marker, seen + {key}, PrefixScan(
              if mtime.Some? && (scan.newest.None? || mtime.value > scan.newest.value) then mtime else scan.newest,
              scan.hasMarker || key == marker,
              false))
  {
  }
}
