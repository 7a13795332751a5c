/** What a sweep reports, in terms of keys, dates, characters and the server's words. */
module SweepMeaning {
  import opened Paging
  import opened Text
  import opened Layout
  import opened Ids
  import opened Wrappers
  import opened Tracking
  import opened S3
  import opened Sweep

  /** Some object stands under the prefix. */
  ghost predicate Stands(v: View, p: string) { exists k :: k in v.objects && p <= k }

  /** Some object under the prefix is younger than the grace period. */
  ghost predicate Young(v: View, p: string) {
    exists k :: k in v.objects && p <= k && v.objects[k].mtime.Some? &&
                v.now - v.objects[k].mtime.value < v.minAge
  }

  /** Some object under the prefix is dated, and each dated one is older than the stale window. */
  ghost predicate Abandoned(v: View, p: string) {
    (exists k :: k in v.objects && p <= k && v.objects[k].mtime.Some?) &&
    forall k :: k in v.objects && p <= k && v.objects[k].mtime.Some? ==>
      v.now - v.objects[k].mtime.value > v.staleAfter
  }

  /** The server says there is no such run, or that it was deleted, or that it ended without finishing. */
  predicate SaysDead(reply: Reply) {
    match reply
    case Raised(code, response) =>
      code == Some("RESOURCE_DOES_NOT_EXIST") || response == Some("RESOURCE_DOES_NOT_EXIST")
    case Found(info) => info.deleted || info.status == FAILED || info.status == KILLED
  }

  predicate SaysLive(reply: Reply) {
    reply.Found? && !reply.info.deleted && (reply.info.status == RUNNING || reply.info.status == SCHEDULED)
  }

  predicate SaysNothing(reply: Reply) {
    reply.Raised? && reply.errorCode != Some("RESOURCE_DOES_NOT_EXIST") &&
    reply.responseCode != Some("RESOURCE_DOES_NOT_EXIST")
  }

  lemma WhatTheServerSays(reply: Reply)
    ensures Classify(reply) == Orphaned <==> SaysDead(reply)
    ensures Classify(reply) == StillRunning <==> SaysLive(reply)
    ensures Classify(reply) == NotAuthoritative <==> SaysNothing(reply)
  {
  }

  /** The last segment of a prefix that is not empty. */
  lemma LastSegmentOf(alias: string, id: string)
    requires SlashFree(alias) && SlashFree(id)
    ensures RunIdOf(RunPrefix(alias, id)) == if id != "" then id else alias
    ensures id != "" ==> ScanMarker(RunPrefix(alias, id)) == RunPrefix(alias, id) + ".retention-keep"
    ensures id == "" ==> !(RunPrefix(alias, id) <= ScanMarker(RunPrefix(alias, id)))
  {
    var p := RunPrefix(alias, id);
    if id != "" {
      RunIdOfPrefix(alias, id);
    } else {
      BareAlias(alias);
    }
  }

  lemma StripTwo(alias: string)
    requires SlashFree(alias)
    ensures StripTrailing(alias + ['/'] + ['/'], '/') == alias
  {
    var one := alias + ['/'];
    assert (one + ['/'])[..|one|] == one && one[..|alias|] == alias;
    assert alias != "" ==> alias[|alias| - 1] in alias;
  }

  lemma BareAlias(alias: string)
    requires SlashFree(alias)
    ensures RunIdOf(RunPrefix(alias, "")) == alias
    ensures !(RunPrefix(alias, "") <= ScanMarker(RunPrefix(alias, "")))
  {
    StripTwo(alias);
    assert RunPrefix(alias, "") == alias + ['/'] + ['/'];
    IndexOfAfter(alias, '/', "");
    NoSecondSlash(alias);
  }

  lemma NoSecondSlash(alias: string)
    ensures !(alias + ['/'] + ['/'] <= alias + "/" + RETENTION_MARKER)
  {
    assert (alias + ['/'] + ['/'])[|alias| + 1] == '/';
    assert (alias + "/" + RETENTION_MARKER)[|alias| + 1] == '.';
  }

  lemma StandingPrefixes(v: View, alias: string, id: string)
    requires SlashFree(alias) && SlashFree(id)
    ensures RunPrefix(alias, id) in RunPrefixes(v.objects) <==> Stands(v, RunPrefix(alias, id))
  {
    var p := RunPrefix(alias, id);
    if p in RunPrefixes(v.objects) {
      var k :| k in v.objects && Listed(k).Some? && Listed(k).value == p;
      var _, _ := ListedShape(k);
    }
    if Stands(v, p) {
      var k :| k in v.objects && p <= k;
      ListedOfRun(alias, id, k);
    }
  }

  lemma SameDates(v: View, p: string)
    ensures WrittenLately(v, p) <==> Young(v, p)
    ensures Silent(v, p) <==> Abandoned(v, p)
  {
    assert forall k :: k in Under(v.objects, p) <==> k in v.objects && p <= k;
  }

  /** The category of a prefix, in plain terms. */
  lemma CategoryInPlainTerms(v: View, alias: string, id: string)
    requires SlashFree(alias) && SlashFree(id)
    ensures var p, c := RunPrefix(alias, id), CategoryOf(v, RunPrefix(alias, id));
            var isId := HexLine(if id != "" then id else alias);
            var marked := id != "" && p + ".retention-keep" in v.objects;
            (c == Recent <==> Young(v, p)) &&
            (c == Foreign <==> !Young(v, p) && !isId) &&
            (c == Orphan <==> !Young(v, p) && isId && SaysDead(v.replies(p)) && !marked) &&
            (c == Held <==> !Young(v, p) && isId && SaysDead(v.replies(p)) && marked) &&
            (c == Stale <==> !Young(v, p) && isId && SaysLive(v.replies(p)) && Abandoned(v, p)) &&
            (c == Unanswered <==> !Young(v, p) && isId && SaysNothing(v.replies(p)))
  {
    var p := RunPrefix(alias, id);
    SameDates(v, p);
    LastSegmentOf(alias, id);
    JudgedIdsAreHex(RunIdOf(p));
    WhatTheServerSays(v.replies(p));
    assert ScanMarker(p) in Under(v.objects, p) <==> ScanMarker(p) in v.objects && p <= ScanMarker(p);
  }

  /**
   * The report of a sweep in plain terms. The judged id is the last segment of the prefix that is not
   * empty: a prefix is on the list of orphans, of held ones or of stale ones only if that is 32
   * lower-case hexadecimal digits with at most one newline behind, and among the prefixes not written
   * lately it is on the list of foreign ones exactly if it is not.
   */
  lemma ReportInPlainTerms(v: View, ps: seq<string>, alias: string, id: string)
    requires Lists(ps, RunPrefixes(v.objects)) && SlashFree(alias) && SlashFree(id)
    ensures var p := alias + "/" + id + "/";
            var uri, report, reply := "s3://" + v.bucket + "/" + p, ReportOf(v, ps), v.replies(p);
            var isId := HexLine(if id != "" then id else alias);
            var marked := id != "" && p + ".retention-keep" in v.objects;
            var settled := Stands(v, p) && !Young(v, p);
            (uri in report.skippedRecent <==> Stands(v, p) && Young(v, p)) &&
            (uri in report.skippedForeign <==> settled && !isId) &&
            (uri in report.orphans <==> settled && isId && SaysDead(reply) && !marked) &&
            (uri in report.kept <==> settled && isId && SaysDead(reply) && marked) &&
            (uri in report.staleRunning <==> settled && isId && SaysLive(reply) && Abandoned(v, p))
  {
    var p := RunPrefix(alias, id);
    CategoryInPlainTerms(v, alias, id);
    StandingPrefixes(v, alias, id);
    ReportMeans(v, ps, Recent);
    ReportMeans(v, ps, Foreign);
    ReportMeans(v, ps, Orphan);
    ReportMeans(v, ps, Held);
    ReportMeans(v, ps, Stale);
    assert Uri(v.bucket, p) == "s3://" + v.bucket + "/" + p;
  }

  /** A sweep is answered exactly when the server never answers in other words where it is asked. */
  lemma AnsweredInPlainTerms(v: View)
    ensures Answered(v) <==>
            !SaysNothing(v.canary) &&
            forall alias, id :: SlashFree(alias) && SlashFree(id) && Stands(v, RunPrefix(alias, id)) ==>
              Young(v, RunPrefix(alias, id)) || !HexLine(if id != "" then id else alias) ||
              !SaysNothing(v.replies(RunPrefix(alias, id)))
  {
    WhatTheServerSays(v.canary);
    forall alias, id | SlashFree(alias) && SlashFree(id)
      ensures RunPrefix(alias, id) in RunPrefixes(v.objects) <==> Stands(v, RunPrefix(alias, id))
      ensures CategoryOf(v, RunPrefix(alias, id)) == Unanswered <==>
              !Young(v, RunPrefix(alias, id)) && HexLine(if id != "" then id else alias) &&
              SaysNothing(v.replies(RunPrefix(alias, id)))
    {
      StandingPrefixes(v, alias, id);
      CategoryInPlainTerms(v, alias, id);
    }
    forall p | p in RunPrefixes(v.objects)
      ensures exists alias, id :: SlashFree(alias) && SlashFree(id) && p == RunPrefix(alias, id) && Stands(v, p)
    {
      var k :| k in v.objects && Listed(k).Some? && Listed(k).value == p;
      var alias, id := ListedShape(k);
      assert p == RunPrefix(alias, id) && Stands(v, p);
    }
  }

  // ---- the breaker, by numbers of prefixes ----

  ghost function OfCategory(v: View, ps: set<string>, c: Category): set<string> {
    set p | p in ps && CategoryOf(v, p) == c
  }

  lemma OneMoreOfCategory(v: View, ps: set<string>, p: string, c: Category)
    requires p !in ps
    ensures |OfCategory(v, ps + {p}, c)| == |OfCategory(v, ps, c)| + if CategoryOf(v, p) == c then 1 else 0
  {
    if CategoryOf(v, p) == c {
      assert OfCategory(v, ps + {p}, c) == OfCategory(v, ps, c) + {p};
    } else {
      assert OfCategory(v, ps + {p}, c) == OfCategory(v, ps, c);
    }
  }

  function Members(ps: seq<string>): set<string> { set p | p in ps }

  lemma {:induction false} ListLength(v: View, ps: seq<string>, c: Category)
    requires NoDuplicates(ps)
    ensures |UrisOf(v, ps, c)| == |OfCategory(v, Members(ps), c)|
  {
    if ps == [] {
      assert Members(ps) == {} && OfCategory(v, {}, c) == {};
    } else {
      var n := |ps| - 1;
      var head := Members(ps[..n]);
      ListLength(v, ps[..n], c);
      LastIsNew(ps);
      OneMoreOfCategory(v, head, ps[n], c);
    }
  }

  lemma LastIsNew(ps: seq<string>)
    requires NoDuplicates(ps) && ps != []
    ensures var n := |ps| - 1; NoDuplicates(ps[..n]) && ps[n] !in ps[..n]
    ensures Members(ps) == Members(ps[..|ps| - 1]) + {ps[|ps| - 1]}
  {
    assert ps == ps[..|ps| - 1] + [ps[|ps| - 1]];
  }

  lemma CategoryLength(v: View, ps: seq<string>, c: Category)
    requires Lists(ps, RunPrefixes(v.objects))
    ensures |UrisOf(v, ps, c)| == |OfCategory(v, RunPrefixes(v.objects), c)|
  {
    ListLength(v, ps, c);
    assert Members(ps) == RunPrefixes(v.objects);
  }

  /** The prefixes a sweep gets to judge: those neither recent nor foreign. */
  ghost function JudgedPrefixes(v: View): set<string> {
    set p | p in RunPrefixes(v.objects) && CategoryOf(v, p) != Recent && CategoryOf(v, p) != Foreign
  }

  lemma JudgedAreTheRest(v: View)
    ensures var all := RunPrefixes(v.objects);
            |all| == |JudgedPrefixes(v)| + |OfCategory(v, all, Recent)| + |OfCategory(v, all, Foreign)|
  {
    var all := RunPrefixes(v.objects);
    var recent, foreign := OfCategory(v, all, Recent), OfCategory(v, all, Foreign);
    assert recent !! foreign && JudgedPrefixes(v) !! recent + foreign;
    assert all == JudgedPrefixes(v) + (recent + foreign);
  }

  lemma ReportLengths(v: View, ps: seq<string>)
    requires Lists(ps, RunPrefixes(v.objects))
    ensures var report := ReportOf(v, ps);
            report.scanned == |RunPrefixes(v.objects)| &&
            |report.orphans| == |OfCategory(v, RunPrefixes(v.objects), Orphan)| &&
            |report.skippedRecent| == |OfCategory(v, RunPrefixes(v.objects), Recent)| &&
            |report.skippedForeign| == |OfCategory(v, RunPrefixes(v.objects), Foreign)|
  {
    CategoryLength(v, ps, Recent);
    CategoryLength(v, ps, Foreign);
    CategoryLength(v, ps, Orphan);
    ListedSize(ps, RunPrefixes(v.objects));
  }

  /** At least five judged prefixes, and more orphans among them than the fraction allows. */
  predicate TooMany(maxFraction: real, judged: int, orphans: int) {
    judged >= 5 && orphans as real > maxFraction * (judged as real)
  }

  /** The breaker looks at the numbers of judged prefixes and of orphans, and at nothing else. */
  lemma BreakerInPlainTerms(v: View, ps: seq<string>, maxFraction: real)
    requires Lists(ps, RunPrefixes(v.objects))
    ensures Considered(ReportOf(v, ps)) == |JudgedPrefixes(v)|
    ensures Trips(maxFraction, ReportOf(v, ps)) <==>
            TooMany(maxFraction, |JudgedPrefixes(v)|, |OfCategory(v, RunPrefixes(v.objects), Orphan)|)
  {
    ReportLengths(v, ps);
    JudgedAreTheRest(v);
    TripsByNumbers(maxFraction, ReportOf(v, ps), |JudgedPrefixes(v)|);
  }

  lemma TripsByNumbers(maxFraction: real, report: SweepReport, judged: int)
    requires report.scanned == judged + |report.skippedRecent| + |report.skippedForeign|
    ensures Considered(report) == judged
    ensures Trips(maxFraction, report) <==> TooMany(maxFraction, judged, |report.orphans|)
  {
  }
}
