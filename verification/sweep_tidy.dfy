/** A sweep that returns has emptied the orphans it reported exactly when all of them were tidy. */
module SweepTidy {
  import opened Wrappers
  import opened Paging
  import opened Text
  import opened Layout
  import opened S3
  import opened Sweep
  import opened SweepEffects
  import opened Janitor

  /** The path of a URI that ends in a slash is refused, or it is the whole path. */
  lemma PathOfDirectory(s: string)
    requires s != "" && s[|s| - 1] == '/'
    ensures PathOf(s) == if (forall c :: c in s ==> c !in {'?', '#'}) then Ok(s) else Err(QueryOrFragment)
  {
    if forall c :: c in s ==> c !in {'?', '#'} {
      PathOfPlain(s);
    } else {
      var hash := IndexOf(s, '#');
      assert hash < |s| - 1 || hash == |s|;
      if hash == |s| {
        assert s[..hash] == s;
        assert '#' !in s by {
          assert forall j :: 0 <= j < |s| ==> s[j] != '#';
        }
        assert '?' in s;
        assert IndexOf(s, '?') < |s| - 1;
      }
    }
  }

  /** What the URI of a prefix reaches: nothing, or the prefix without what parsing drops. */
  lemma ReachOfPrefix(b: string, x: string, y: string)
    requires LegalBucket(b)
    ensures var p := RunPrefix(x, y);
            Reach(b, Uri(b, p)) ==
            if exists c :: c in p && c in {'?', '#'} then ""
            else StripLeading("/" + Without(p, UNSAFE), '/')
  {
    var p := RunPrefix(x, y);
    WithoutIsSafe(p, UNSAFE);
    assert p[|p| - 1] == '/';
    ReachOfPath(b, p);
    PathOfDirectory("/" + Without(p, UNSAFE));
    MarksSurvive(p);
  }

  lemma MarksSurvive(p: string)
    ensures (exists c :: c in p && c in {'?', '#'}) <==>
            !(forall c :: c in "/" + Without(p, UNSAFE) ==> c !in {'?', '#'})
  {
    var tail := "/" + Without(p, UNSAFE);
    WithoutIsSafe(p, UNSAFE);
    assert forall c :: c in tail <==> c == '/' || c in Without(p, UNSAFE);
  }

  lemma ReachOfPath(b: string, p: string)
    requires LegalBucket(b)
    ensures Reach(b, Uri(b, p)) == match PathOf("/" + Without(p, UNSAFE))
                                   case Err(_) => ""
                                   case Ok(path) => StripLeading(path, '/')
  {
    ParseOfUri(b, p);
  }

  /** A first character that parsing drops. */
  predicate DropsHead(p: string) { p != "" && (p[0] == '/' || p[0] in UNSAFE) }

  lemma ReachHasNoDroppedHead(b: string, x: string, y: string)
    requires LegalBucket(b)
    ensures !DropsHead(Reach(b, Uri(b, RunPrefix(x, y))))
  {
    var p := RunPrefix(x, y);
    var tail := "/" + Without(p, UNSAFE);
    ReachOfPrefix(b, x, y);
    WithoutIsSafe(p, UNSAFE);
    var t := StripLeading(tail, '/');
    if t != "" {
      assert t[0] == tail[|tail| - |t|];
      assert t[0] in tail;
    }
  }

  lemma ReachKeepsSegments(b: string, x: string, y: string)
    requires LegalBucket(b) && !DropsHead(RunPrefix(x, y)) && SlashFree(x) && SlashFree(y)
    ensures var t := Reach(b, Uri(b, RunPrefix(x, y)));
            t != "" ==> t == RunPrefix(Without(x, UNSAFE), Without(y, UNSAFE)) &&
                        SlashFree(Without(x, UNSAFE)) && SlashFree(Without(y, UNSAFE))
  {
    var p := RunPrefix(x, y);
    var kept := Without(p, UNSAFE);
    ReachOfPrefix(b, x, y);
    WithoutIsSafe(p, UNSAFE);
    WithoutIsSafe(x, UNSAFE);
    WithoutIsSafe(y, UNSAFE);
    assert StripLeading("/" + kept, '/') == kept by {
      StripOne('/', kept);
    }
    WithoutOfRunPrefix(x, y);
  }

  lemma WithoutOfRunPrefix(x: string, y: string)
    ensures Without(RunPrefix(x, y), UNSAFE) == RunPrefix(Without(x, UNSAFE), Without(y, UNSAFE))
  {
    WithoutAppend(x + "/" + y, "/", UNSAFE);
    WithoutAppend(x + "/", y, UNSAFE);
    WithoutAppend(x, "/", UNSAFE);
    WithoutKeeps("/", UNSAFE);
  }

  /** A key whose first character parsing drops is out of every sweep's reach. */
  lemma DroppedHeadIsMissed(v: View, order: seq<string>, k: string)
    requires LegalBucket(v.bucket) && Lists(order, RunPrefixes(v.objects)) && DropsHead(k)
    ensures !Hit(Reaches(v.bucket, ReportOf(v, order).orphans), k)
  {
    var targets := Reaches(v.bucket, ReportOf(v, order).orphans);
    if Hit(targets, k) {
      var t :| t in targets && t != "" && t <= k;
      assert t[0] == k[0];
      var q := TargetOfAnOrphan(v, order, t);
      var x, y, _ := RunPrefixShape(v.objects, q);
      ReachHasNoDroppedHead(v.bucket, x, y);
    }
  }

  /** With every head kept, a target that hits a key under a prefix is that prefix. */
  lemma HitIsThePrefix(v: View, q: string, p: string, k: string)
    requires LegalBucket(v.bucket) && IsOrphan(v, q) && p in RunPrefixes(v.objects) && p <= k && !DropsHead(q)
    requires var t := Reach(v.bucket, Uri(v.bucket, q)); t != "" && t <= k
    ensures forall c :: c in p ==> c !in UNSAFE
  {
    var x, y, _ := RunPrefixShape(v.objects, q);
    var a, r, _ := RunPrefixShape(v.objects, p);
    ReachKeepsSegments(v.bucket, x, y);
    OnePrefixPerKey(Without(x, UNSAFE), Without(y, UNSAFE), a, r, k);
    WithoutOfRunPrefix(x, y);
    WithoutIsSafe(q, UNSAFE);
  }

  /** Were the orphans emptied, no orphan's head was dropped. */
  lemma EmptiedHeadsAreKept(v: View, order: seq<string>, after: Objects, p: string)
    requires LegalBucket(v.bucket) && Lists(order, RunPrefixes(v.objects)) && IsOrphan(v, p)
    requires Purged(v.objects, after, Reaches(v.bucket, ReportOf(v, order).orphans)) && NoOrphanKeyLeft(v, after)
    ensures !DropsHead(p)
  {
    if DropsHead(p) {
      var a, r, k := RunPrefixShape(v.objects, p);
      assert k[0] == p[0];
      DroppedHeadIsMissed(v, order, k);
      assert OrphanKey(v, k);
    }
  }

  lemma EmptiedIsTidy(v: View, order: seq<string>, after: Objects, p: string)
    requires LegalBucket(v.bucket) && Lists(order, RunPrefixes(v.objects)) && IsOrphan(v, p)
    requires Purged(v.objects, after, Reaches(v.bucket, ReportOf(v, order).orphans)) && NoOrphanKeyLeft(v, after)
    ensures Tidy(p)
  {
    var targets := Reaches(v.bucket, ReportOf(v, order).orphans);
    var a, r, k := RunPrefixShape(v.objects, p);
    EmptiedHeadsAreKept(v, order, after, p);
    OrphanIsReached(v, order, p);
    ReachOfPrefix(v.bucket, a, r);
    assert OrphanKey(v, k);
    var t :| t in targets && t != "" && t <= k;
    var q := TargetOfAnOrphan(v, order, t);
    EmptiedHeadsAreKept(v, order, after, q);
    HitIsThePrefix(v, q, p, k);
  }

  /**
   * The exact condition: an apply sweep that returns has removed the keys under its reported orphans
   * and no other key, and counted them, if and only if every one of these prefixes is tidy.
   */
  lemma EmptiedExactlyWhenTidy(v: View, order: seq<string>, maxFraction: real, after: Objects, r: SweepOutcome)
    requires LegalBucket(v.bucket) && Lists(order, RunPrefixes(v.objects))
    requires Performed(v, ReportOf(v, order), true, maxFraction, after, r) && r.Swept?
    ensures WithoutOrphans(v, after) <==> TidyOrphans(v)
    ensures TidyOrphans(v) ==> r.report.deletedObjects == |set k | k in v.objects && OrphanKey(v, k)|
  {
    if TidyOrphans(v) {
      SweptExactlyTheOrphans(v, order, maxFraction, after, r);
    }
    if WithoutOrphans(v, after) {
      AllTidy(v, order, after);
    }
  }

  /** Nothing is left under any orphan; other keys may be gone as well. */
  ghost predicate NoOrphanKeyLeft(v: View, after: Objects) {
    forall k :: k in after ==> !OrphanKey(v, k)
  }

  lemma AllTidy(v: View, order: seq<string>, after: Objects)
    requires LegalBucket(v.bucket) && Lists(order, RunPrefixes(v.objects))
    requires Purged(v.objects, after, Reaches(v.bucket, ReportOf(v, order).orphans)) && NoOrphanKeyLeft(v, after)
    ensures TidyOrphans(v)
  {
    forall p | IsOrphan(v, p)
      ensures Tidy(p)
    {
      EmptiedIsTidy(v, order, after, p);
    }
  }

  // ---- the second sweep ----

  /** Losing keys makes nothing recent and marks nothing. */
  lemma FewerKeysStayOrphan(v: View, w: View, p: string)
    requires w == v.(objects := w.objects) && OnlyLost(v.objects, w.objects, v.objects.Keys)
    requires CategoryOf(v, p) == Orphan
    ensures CategoryOf(w, p) == Orphan
  {
    StillNotRecent(v, w, p);
  }

  lemma StillNotRecent(v: View, w: View, p: string)
    requires w == v.(objects := w.objects) && OnlyLost(v.objects, w.objects, v.objects.Keys)
    ensures WrittenLately(w, p) ==> WrittenLately(v, p)
    ensures ScanMarker(p) in Under(w.objects, p) ==> ScanMarker(p) in Under(v.objects, p)
  {
    if WrittenLately(w, p) {
      var k :| k in Under(w.objects, p) && w.objects[k].mtime.Some? && w.now - w.objects[k].mtime.value < w.minAge;
      assert k in Under(v.objects, p);
    }
  }

  /** An orphan that keeps a key is an orphan for the next sweep, too. */
  lemma OrphanStaysOrphan(v: View, after: Objects, p: string, k: string)
    requires OnlyLost(v.objects, after, v.objects.Keys)
    requires IsOrphan(v, p) && k in after && p <= k
    ensures IsOrphan(v.(objects := after), p)
  {
    var a, r, _ := RunPrefixShape(v.objects, p);
    ListedOfRun(a, r, k);
    FewerKeysStayOrphan(v, v.(objects := after), p);
  }

  lemma NoOrphanMeansNoKey(v: View, after: Objects, order': seq<string>)
    requires OnlyLost(v.objects, after, v.objects.Keys) && Lists(order', RunPrefixes(after))
    requires ReportOf(v.(objects := after), order').orphans == []
    ensures NoOrphanKeyLeft(v, after)
  {
    var w := v.(objects := after);
    forall k | k in after
      ensures !OrphanKey(v, k)
    {
      if OrphanKey(v, k) {
        var p :| IsOrphan(v, p) && p <= k;
        OrphanStaysOrphan(v, after, p, k);
        OrphanIsReported(w, order', p);
      }
    }
  }

  lemma OrphanIsReported(w: View, order: seq<string>, p: string)
    requires Lists(order, RunPrefixes(w.objects)) && IsOrphan(w, p)
    ensures ReportOf(w, order).orphans != []
  {
    ListedUris(w, order, Orphan);
    assert p in order;
    assert Uri(w.bucket, p) in UrisOf(w, order, Orphan);
  }

  /**
   * Convergence: at the same clock and with the same answers, a sweep after one that returned finds no
   * orphan if and only if the first one's orphans were all tidy; then it is answered, is not stopped
   * by the breaker, and changes nothing.
   */
  lemma SecondSweepFindsNothing(v: View, order: seq<string>, maxFraction: real, after: Objects, r: SweepOutcome,
                                order': seq<string>)
    requires LegalBucket(v.bucket) && Answered(v) && Lists(order, RunPrefixes(v.objects))
    requires Performed(v, ReportOf(v, order), true, maxFraction, after, r) && r.Swept?
    requires Lists(order', RunPrefixes(after))
    ensures ReportOf(v.(objects := after), order').orphans == [] <==> TidyOrphans(v)
    ensures TidyOrphans(v) ==> Answered(v.(objects := after))
    ensures TidyOrphans(v) && maxFraction >= 0.0 ==>
              forall after', r' ::
                Performed(v.(objects := after), ReportOf(v.(objects := after), order'), true, maxFraction, after', r')
                ==> r'.Swept? && r'.report.deletedObjects == 0 && after' == after
  {
    var w := v.(objects := after);
    if TidyOrphans(v) {
      SweptExactlyTheOrphans(v, order, maxFraction, after, r);
      NoOrphanLeft(v, after, order');
      forall after', r' | maxFraction >= 0.0 && Performed(w, ReportOf(w, order'), true, maxFraction, after', r')
        ensures r'.Swept? && r'.report.deletedObjects == 0 && after' == after
      {
        NothingToPurge(w, ReportOf(w, order'), order', maxFraction, after', r');
      }
    } else if ReportOf(w, order').orphans == [] {
      NoOrphanMeansNoKey(v, after, order');
      AllTidy(v, order, after);
    }
  }

  /** One orphan with `?` or `#` in its prefix keeps every apply sweep from returning. */
  lemma MarkedOrphanBlocksTheSweep(v: View, order: seq<string>, p: string, maxFraction: real,
                                   after: Objects, r: SweepOutcome)
    requires LegalBucket(v.bucket) && Lists(order, RunPrefixes(v.objects))
    requires IsOrphan(v, p) && (exists c :: c in p && c in {'?', '#'})
    requires Performed(v, ReportOf(v, order), true, maxFraction, after, r)
    ensures !r.Swept?
  {
    var a, i, _ := RunPrefixShape(v.objects, p);
    ReachOfPrefix(v.bucket, a, i);
    OrphanIsReached(v, order, p);
  }
}
