/** Whose objects the purge of an orphan can touch. */
module SweepReach {
  import opened Wrappers
  import opened Text
  import opened Layout
  import opened Ids
  import opened Janitor
  import opened SweepTidy

  /** The URI of the prefix is refused, so that its purge raises. */
  predicate Marked(p: string) { exists c :: c in p && c in {'?', '#'} }

  /** The URI of the prefix `x/y/` names something that is not of the run `y` alone. */
  predicate Astray(x: string, y: string) {
    !Marked(RunPrefix(x, y)) && (Without(x, UNSAFE) == "" || Without(y, UNSAFE) != y)
  }

  lemma ReachBehindAName(b: string, x: string, y: string)
    requires LegalBucket(b) && SlashFree(x) && !Marked(RunPrefix(x, y)) && Without(x, UNSAFE) != ""
    ensures Reach(b, Uri(b, RunPrefix(x, y))) == RunPrefix(Without(x, UNSAFE), Without(y, UNSAFE))
  {
    var kept := RunPrefix(Without(x, UNSAFE), Without(y, UNSAFE));
    ReachOfPrefix(b, x, y);
    WithoutOfRunPrefix(x, y);
    WithoutIsSafe(x, UNSAFE);
    assert kept[0] == Without(x, UNSAFE)[0] && kept[0] in Without(x, UNSAFE);
    StripOne('/', kept);
  }

  lemma ReachBehindNothing(b: string, x: string, y: string)
    requires LegalBucket(b) && SlashFree(y) && !Marked(RunPrefix(x, y))
    requires Without(x, UNSAFE) == "" && Without(y, UNSAFE) != ""
    ensures Reach(b, Uri(b, RunPrefix(x, y))) == Without(y, UNSAFE) + "/"
  {
    var rest := Without(y, UNSAFE) + "/";
    ReachOfPrefix(b, x, y);
    WithoutOfRunPrefix(x, y);
    WithoutIsSafe(y, UNSAFE);
    assert RunPrefix("", Without(y, UNSAFE)) == ['/'] + rest;
    assert rest[0] == Without(y, UNSAFE)[0] && rest[0] in Without(y, UNSAFE);
    StripOne('/', ['/'] + rest);
    StripOne('/', rest);
  }

  lemma IdsKeepTheirDigits(y: string)
    requires MatchesRunId(y)
    ensures Without(y, UNSAFE) == BeforeFinalNewline(y) != ""
  {
    var id := BeforeFinalNewline(y);
    assert RunId(y) ==> y[31] in y;
    assert RunId(id);
    assert forall c :: c in id ==> c !in UNSAFE;
    WithoutKeeps(id, UNSAFE);
    if y != id {
      assert y == id + "\n" + "";
      NewlineIsDropped(id, "");
      assert id + "" == id;
    }
  }

  /** A key under an alias, of a run that is not `y`. */
  lemma OtherRunUnder(alias: string, y: string) returns (k: string)
    requires SlashFree(alias)
    ensures alias + "/" <= k && OwnerId(k) != Some(y)
  {
    var other := if y == "x" then "z" else "x";
    k := RunPrefix(alias, other);
    OwnerOfRunKey(alias, other, k);
    assert k == (alias + "/") + (other + "/");
  }

  lemma AstrayTouchesAnother(b: string, x: string, y: string) returns (k: string)
    requires LegalBucket(b) && SlashFree(x) && SlashFree(y) && MatchesRunId(y) && Astray(x, y)
    ensures Hit([Reach(b, Uri(b, RunPrefix(x, y)))], k) && OwnerId(k) != Some(y)
  {
    var t := Reach(b, Uri(b, RunPrefix(x, y)));
    var x', y' := Without(x, UNSAFE), Without(y, UNSAFE);
    IdsKeepTheirDigits(y);
    WithoutIsSafe(x, UNSAFE);
    WithoutIsSafe(y, UNSAFE);
    if x' == "" {
      ReachBehindNothing(b, x, y);
      k := OtherRunUnder(y', y);
    } else {
      ReachBehindAName(b, x, y);
      k := t;
      OwnerOfRunKey(x', y', k);
    }
    assert t in [t];
  }

  lemma HomeTouchesItsOwn(b: string, x: string, y: string, k: string)
    requires LegalBucket(b) && SlashFree(x) && SlashFree(y) && !Astray(x, y)
    requires Hit([Reach(b, Uri(b, RunPrefix(x, y)))], k)
    ensures OwnerId(k) == Some(y)
  {
    if Marked(RunPrefix(x, y)) {
      ReachOfPrefix(b, x, y);
    } else {
      WithoutIsSafe(x, UNSAFE);
      ReachBehindAName(b, x, y);
      OwnerOfRunKey(Without(x, UNSAFE), y, k);
    }
  }

  /**
   * Exactly when the purge of an orphan touches no other run: it reaches keys of the run the orphan was
   * judged by, and of no other, if and only if the prefix is not astray.
   */
  lemma PurgeStaysWithItsRun(b: string, x: string, y: string)
    requires LegalBucket(b) && SlashFree(x) && SlashFree(y) && MatchesRunId(y)
    ensures (forall k :: Hit([Reach(b, Uri(b, RunPrefix(x, y)))], k) ==> OwnerId(k) == Some(y)) <==> !Astray(x, y)
  {
    if Astray(x, y) {
      var k := AstrayTouchesAnother(b, x, y);
    } else {
      forall k | Hit([Reach(b, Uri(b, RunPrefix(x, y)))], k)
        ensures OwnerId(k) == Some(y)
      {
        HomeTouchesItsOwn(b, x, y, k);
      }
    }
  }

  // ---- by the prefix ----

  function FirstSegment(p: string): string { p[..IndexOf(p, '/')] }

  /** A listed prefix whose purge reaches objects, and those of its own run only. */
  predicate StaysHome(p: string) {
    Listed(p) == Some(p) && OwnerId(p).Some? && !Marked(p) && !Astray(FirstSegment(p), OwnerId(p).value)
  }

  lemma SegmentsOf(p: string)
    requires Listed(p) == Some(p)
    ensures OwnerId(p).Some? && p == RunPrefix(FirstSegment(p), OwnerId(p).value)
    ensures SlashFree(FirstSegment(p)) && SlashFree(OwnerId(p).value)
  {
    var a, r := ListedShape(p);
    ListedOfRun(a, r, p);
    OwnerOfRunKey(a, r, p);
    assert FirstSegment(p) == a;
  }

  /** What the purge of such a prefix empties: a run prefix of the same run. */
  function TargetOfHome(p: string): string
    requires OwnerId(p).Some?
  {
    RunPrefix(Without(FirstSegment(p), UNSAFE), OwnerId(p).value)
  }

  lemma HomeReach(b: string, p: string)
    requires LegalBucket(b) && StaysHome(p)
    ensures Reach(b, Uri(b, p)) == TargetOfHome(p) && Listed(TargetOfHome(p)) == Some(TargetOfHome(p))
    ensures forall k :: TargetOfHome(p) <= k ==> Listed(k) == Some(TargetOfHome(p)) && OwnerId(k) == OwnerId(p)
  {
    var x, y := FirstSegment(p), OwnerId(p).value;
    SegmentsOf(p);
    WithoutIsSafe(x, UNSAFE);
    ReachBehindAName(b, x, y);
    forall k | TargetOfHome(p) <= k
      ensures Listed(k) == Some(TargetOfHome(p)) && OwnerId(k) == OwnerId(p)
    {
      ListedOfRun(Without(x, UNSAFE), y, k);
      OwnerOfRunKey(Without(x, UNSAFE), y, k);
    }
  }

  lemma TidyStaysHome(p: string)
    requires Tidy(p) && Listed(p) == Some(p)
    ensures StaysHome(p) && TargetOfHome(p) == p
  {
    var x, y := FirstSegment(p), OwnerId(p).value;
    SegmentsOf(p);
    assert forall c :: c in x || c in y ==> c in p by {
      assert forall c :: c in x ==> c in x + "/" + y + "/";
      assert forall c :: c in y ==> c in x + "/" + y + "/";
    }
    WithoutKeeps(x, UNSAFE);
    WithoutKeeps(y, UNSAFE);
    assert p[0] != '/' && IndexOf(p, '/') > 0;
  }

  // ---- the prefixes purged through one run's ----

  /** A key, or a prefix, of the run `r` whose first segment parsing turns into `alias`. */
  predicate Kin(alias: string, r: string, k: string) {
    OwnerId(k) == Some(r) && Without(FirstSegment(k), UNSAFE) == alias
  }

  lemma CleanAlias(alias: string, r: string)
    requires SafeName(alias) && RunId(r)
    ensures SlashFree(alias) && SlashFree(r) && alias != ""
    ensures Without(alias, UNSAFE) == alias && Without(r, UNSAFE) == r
  {
    RunKeysAreTidy(alias, r);
    assert forall c :: c in alias ==> c !in UNSAFE;
    WithoutKeeps(alias, UNSAFE);
    assert forall c :: c in r ==> c !in UNSAFE;
    WithoutKeeps(r, UNSAFE);
  }

  lemma KinUnder(q: string, k: string)
    requires Listed(q) == Some(q) && q <= k
    ensures Listed(k) == Some(q) && OwnerId(k) == OwnerId(q) && FirstSegment(k) == FirstSegment(q)
  {
    var x, y := FirstSegment(q), OwnerId(q).value;
    SegmentsOf(q);
    ListedOfRun(x, y, k);
    OwnerOfRunKey(x, y, k);
    assert k[..|x|] == q[..|x|];
  }

  lemma OwnKeysAreKin(alias: string, r: string, k: string)
    requires SafeName(alias) && RunId(r) && RunPrefix(alias, r) <= k
    ensures Kin(alias, r, k) && Listed(k) == Some(RunPrefix(alias, r))
  {
    CleanAlias(alias, r);
    ListedOfRun(alias, r, k);
    OwnerOfRunKey(alias, r, k);
    assert FirstSegment(k) == alias;
  }

  lemma UnmarkedSegments(x: string, y: string)
    requires (forall c :: c in x ==> c !in {'?', '#'}) && (forall c :: c in y ==> c !in {'?', '#'})
    ensures !Marked(RunPrefix(x, y))
  {
    assert forall c :: c in RunPrefix(x, y) ==> c in x || c == '/' || c in y;
  }

  lemma KinSegment(alias: string, x: string)
    requires SafeName(alias) && Without(x, UNSAFE) == alias
    ensures forall c :: c in x ==> c !in {'?', '#'}
  {
    WithoutIsSafe(x, UNSAFE);
    assert forall c :: c in x ==> c in alias || c in UNSAFE;
  }

  /** The purge of a kindred prefix empties the prefix of the run. */
  lemma KinStaysHome(alias: string, r: string, q: string)
    requires SafeName(alias) && RunId(r) && Listed(q) == Some(q) && Kin(alias, r, q)
    ensures StaysHome(q) && TargetOfHome(q) == RunPrefix(alias, r)
  {
    CleanAlias(alias, r);
    SegmentsOf(q);
    KinSegment(alias, FirstSegment(q));
    assert forall c :: c in r ==> HexDigit(c);
    UnmarkedSegments(FirstSegment(q), r);
  }

  lemma WithoutTwice(x: string)
    ensures Without(Without(x, UNSAFE), UNSAFE) == Without(x, UNSAFE)
  {
    WithoutIsSafe(x, UNSAFE);
    WithoutKeeps(Without(x, UNSAFE), UNSAFE);
  }

  /** Whoever empties a key kindred to the run is kindred itself. */
  lemma OnlyKinReachesKin(alias: string, r: string, q: string, k: string)
    requires SafeName(alias) && RunId(r) && StaysHome(q) && TargetOfHome(q) <= k && Kin(alias, r, k)
    ensures Kin(alias, r, q) && RunPrefix(alias, r) <= k
  {
    var x, y := FirstSegment(q), OwnerId(q).value;
    SegmentsOf(q);
    WithoutIsSafe(x, UNSAFE);
    WithoutTwice(x);
    SegmentsUnder(Without(x, UNSAFE), y, k);
  }

  lemma SegmentsUnder(x: string, y: string, k: string)
    requires SlashFree(x) && SlashFree(y) && RunPrefix(x, y) <= k
    ensures OwnerId(k) == Some(y) && FirstSegment(k) == x
  {
    ListedOfRun(x, y, k);
    OwnerOfRunKey(x, y, k);
    assert k[..|x|] == RunPrefix(x, y)[..|x|] == x;
  }

  /** The marker of a listed prefix stands under it. */
  lemma MarkerUnder(q: string)
    requires Listed(q) == Some(q) && OwnerId(q).Some? && OwnerId(q).value != ""
    ensures q <= ScanMarker(q) && RunIdOf(q) == OwnerId(q).value
  {
    SegmentsOf(q);
    RunIdOfPrefix(FirstSegment(q), OwnerId(q).value);
  }

  lemma PrefixOfKey(k: string)
    requires Listed(k).Some?
    ensures Listed(Listed(k).value) == Some(Listed(k).value) && Listed(k).value <= k
  {
    var a, r := ListedShape(k);
    ListedOfRun(a, r, Listed(k).value);
  }

  /** A kindred key stands under a kindred prefix, and so does that prefix's marker. */
  lemma KinOfKey(alias: string, r: string, k: string)
    requires RunId(r) && Kin(alias, r, k)
    ensures Listed(k).Some?
    ensures var q := Listed(k).value;
            Listed(q) == Some(q) && q <= k && Kin(alias, r, q) && Kin(alias, r, ScanMarker(q)) &&
            Listed(ScanMarker(q)) == Some(q) && RunIdOf(q) == r
  {
    var q := Listed(k).value;
    PrefixOfKey(k);
    KinUnder(q, k);
    MarkerUnder(q);
    KinUnder(q, ScanMarker(q));
  }
}
