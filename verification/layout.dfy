/** experiment_store/s3_layout.py, the pure part: keys, URIs, the retention marker and the mount path. */
module Layout {
  import opened Wrappers
  import opened Text
  import opened Ids

  const RETENTION_MARKER := ".retention-keep"

  function RunPrefix(alias: string, runId: string): string { alias + "/" + runId + "/" }

  /** The URI the store and the janitor build for a key prefix. */
  function Uri(bucket: string, key: string): string { "s3://" + bucket + "/" + key }

  function ArtifactsUri(bucket: string, alias: string, runId: string): string {
    Uri(bucket, RunPrefix(alias, runId))
  }

  datatype ParsedS3Uri = ParsedS3Uri(bucket: string, key: string)

  datatype UriError = NotS3 | QueryOrFragment | NoBucket | EmptyKey | OtherBucket

  /** Tab, carriage return and newline: `urlparse` deletes them wherever they stand. */
  const UNSAFE: set<char> := {'\t', '\r', '\n'}

  function StripControl(s: string): (r: string)
    ensures s != "" && s[0] > ' ' ==> r == s
  {
    if s != "" && s[0] <= ' ' then StripControl(s[1..]) else s
  }

  function Min(a: nat, b: nat): nat { if a < b then a else b }

  /** Where `urlparse` ends the network location that follows `//`. */
  function NetlocEnd(s: string): (n: nat)
    ensures n <= |s|
  {
    Min(IndexOf(s, '/'), Min(IndexOf(s, '?'), IndexOf(s, '#')))
  }

  /** The path of what follows the network location; a non-empty query or fragment is refused. */
  function PathOf(tail: string): Result<string, UriError> {
    var hash := IndexOf(tail, '#');
    var mark := IndexOf(tail[..hash], '?');
    if hash + 1 < |tail| || mark + 1 < hash then Err(QueryOrFragment) else Ok(tail[..mark])
  }

  /** `urlparse` as far as an `s3` URI exercises it, then the store's own checks. */
  function ParseS3Uri(uri: string): Result<ParsedS3Uri, UriError> {
    ParseUrl(Without(StripControl(uri), UNSAFE))
  }

  function ParseUrl(url: string): Result<ParsedS3Uri, UriError> {
    if !(|url| >= 3 && url[0] in {'s', 'S'} && url[1] == '3' && url[2] == ':') then Err(NotS3)
    else ParseRest(url[3..])
  }

  /** What follows the scheme: the network location, if there is one, and the path. */
  function ParseRest(rest: string): Result<ParsedS3Uri, UriError> {
    var n := if |rest| >= 2 && rest[0] == '/' && rest[1] == '/' then 2 + NetlocEnd(rest[2..]) else 0;
    match PathOf(rest[n..])
    case Err(e) => Err(e)
    case Ok(path) =>
      if n <= 2 then Err(NoBucket) else Ok(ParsedS3Uri(rest[2..n], StripLeading(path, '/')))
  }

  predicate LegalBucket(b: string) {
    3 <= |b| <= 63 && forall c :: c in b ==> LowerOrDigit(c) || c in {'.', '-'}
  }

  /** A key prefix that its own URI still names after parsing. */
  predicate Tidy(p: string) {
    p != "" && p[0] != '/' && forall c :: c in p ==> c !in {'\t', '\r', '\n', '?', '#'}
  }

  lemma NetlocOfUri(b: string, d: string)
    requires LegalBucket(b)
    ensures NetlocEnd(b + "/" + d) == |b|
  {
    var s := b + ['/'] + d;
    IndexOfAfter(b, '/', d);
    assert forall j :: 0 <= j < |b| ==> s[j] == b[j] && b[j] in b;
  }

  lemma CleanUri(b: string, p: string)
    requires LegalBucket(b)
    ensures Without(StripControl(Uri(b, p)), UNSAFE) == "s3:" + ("//" + (b + "/" + Without(p, UNSAFE)))
  {
    var head := "s3://" + b + "/";
    HeadIsSafe(b);
    WithoutKeeps(head, UNSAFE);
    WithoutAppend(head, p, UNSAFE);
    UriParts(b, p);
    UriParts(b, Without(p, UNSAFE));
  }

  lemma HeadIsSafe(b: string)
    requires LegalBucket(b)
    ensures forall c :: c in "s3://" + b + "/" ==> c !in UNSAFE
  {
  }

  lemma UriParts(b: string, p: string)
    ensures Uri(b, p) == ("s3://" + b + "/") + p == "s3:" + ("//" + (b + "/" + p))
  {
  }

  /** Parsing the URI of `p` reads its path off what the unsafe characters leave of `p`. */
  lemma ParseOfUri(b: string, p: string)
    requires LegalBucket(b)
    ensures ParseS3Uri(Uri(b, p)) == WithBucket(b, PathOf("/" + Without(p, UNSAFE)))
  {
    CleanUri(b, p);
    ParseOfUrl(b, Without(p, UNSAFE));
  }

  function WithBucket(b: string, path: Result<string, UriError>): Result<ParsedS3Uri, UriError> {
    match path
    case Err(e) => Err(e)
    case Ok(s) => Ok(ParsedS3Uri(b, StripLeading(s, '/')))
  }

  lemma ParseRestParts(rest: string, b: string, tail: string)
    requires b != "" && |rest| >= 2 + |b| && rest[0] == '/' && rest[1] == '/'
    requires rest[2..2 + |b|] == b && rest[2 + |b|..] == tail && NetlocEnd(rest[2..]) == |b|
    ensures ParseRest(rest) == WithBucket(b, PathOf(tail))
  {
    var n := 2 + NetlocEnd(rest[2..]);
    assert n > 2 && rest[n..] == tail && rest[2..n] == b;
  }

  lemma ParseParts(url: string, b: string, tail: string)
    requires b != "" && |url| >= 5 + |b|
    requires url[0] == 's' && url[1] == '3' && url[2] == ':' && url[3] == '/' && url[4] == '/'
    requires url[5..5 + |b|] == b && url[5 + |b|..] == tail && NetlocEnd(url[5..]) == |b|
    ensures ParseUrl(url) == WithBucket(b, PathOf(tail))
  {
    var rest := url[3..];
    assert rest[2..] == url[5..];
    assert rest[2..2 + |b|] == b && rest[2 + |b|..] == tail;
    ParseRestParts(rest, b, tail);
  }

  lemma ParseOfUrl(b: string, d: string)
    requires LegalBucket(b)
    ensures ParseUrl("s3:" + ("//" + (b + "/" + d))) == WithBucket(b, PathOf("/" + d))
  {
    var url := "s3:" + ("//" + (b + "/" + d));
    assert url[5..] == b + "/" + d;
    NetlocOfUri(b, d);
    assert url[5..5 + |b|] == b && url[5 + |b|..] == "/" + d;
    ParseParts(url, b, "/" + d);
  }

  lemma PathOfPlain(s: string)
    requires forall c :: c in s ==> c !in {'?', '#'}
    ensures PathOf(s) == Ok(s)
  {
    assert forall j :: 0 <= j < |s| ==> s[j] in s;
    assert s[..|s|] == s;
  }

  lemma TidyPathSurvives(p: string)
    requires Tidy(p)
    ensures Without(p, UNSAFE) == p && PathOf("/" + p) == Ok("/" + p) && StripLeading("/" + p, '/') == p
  {
    WithoutKeeps(p, UNSAFE);
    PathOfPlain("/" + p);
    assert ("/" + p)[1..] == p;
  }

  lemma OnlyTidyPathsSurvive(p: string, d: string)
    requires p != "" && |d| <= |p| && (d == p ==> forall c :: c in p ==> c !in UNSAFE)
    requires PathOf("/" + d).Ok? && StripLeading(PathOf("/" + d).value, '/') == p
    ensures Tidy(p)
  {
    var path := PathOf("/" + d).value;
    PathBegins("/" + d);
    OneSlashGoes(d, path);
    assert forall c :: c in p ==> c in "/" + d;
  }

  lemma OneSlashGoes(d: string, path: string)
    requires path <= "/" + d && StripLeading(path, '/') != "" && |d| <= |StripLeading(path, '/')|
    ensures StripLeading(path, '/') == d && d[0] != '/' && path == "/" + d
  {
    assert path[0] == '/' && path == ['/'] + path[1..];
    StripOne('/', path[1..]);
    assert path[1..] <= d;
  }

  /** The path is a beginning of what follows the bucket, and all of it only without `?` and `#`. */
  lemma PathBegins(tail: string)
    requires PathOf(tail).Ok?
    ensures PathOf(tail).value <= tail
    ensures |PathOf(tail).value| == |tail| ==> forall c :: c in tail ==> c !in {'?', '#'}
  {
    var hash := IndexOf(tail, '#');
    var mark := IndexOf(tail[..hash], '?');
    assert tail[..hash][..mark] == tail[..mark];
  }

  /**
   * What `delete_prefix` goes on to empty when it is handed the URI of a listed prefix: the prefix
   * itself exactly when the prefix is tidy.
   */
  lemma UriNamesItsPrefix(b: string, p: string)
    requires LegalBucket(b) && p != ""
    ensures ParseS3Uri(Uri(b, p)) == Ok(ParsedS3Uri(b, p)) <==> Tidy(p)
  {
    ParseOfUri(b, p);
    if Tidy(p) {
      TidyPathSurvives(p);
    } else if ParseS3Uri(Uri(b, p)) == Ok(ParsedS3Uri(b, p)) {
      WithoutKeeps(p, UNSAFE);
      OnlyTidyPathsSurvive(p, Without(p, UNSAFE));
    }
  }

  // ---- keys and the run prefixes they stand under ----

  predicate SlashFree(s: string) { '/' !in s }

  /** `_run_id_of`: the last segment of a listed prefix. */
  function RunIdOf(prefix: string): string { LastSegment(StripTrailing(prefix, '/'), '/') }

  /** The marker key the janitor looks for while it scans a prefix. */
  function ScanMarker(prefix: string): string { StripTrailing(prefix, '/') + "/" + RETENTION_MARKER }

  /** The marker key `hold` writes. */
  function MarkerKey(uri: string): Result<ParsedS3Uri, UriError> {
    match ParseS3Uri(uri)
    case Err(e) => Err(e)
    case Ok(u) =>
      if u.key == "" then Err(EmptyKey)
      else Ok(ParsedS3Uri(u.bucket, StripTrailing(u.key, '/') + "/" + RETENTION_MARKER))
  }

  /** The `<segment>/<segment>/` prefix a two-level delimiter listing reports for a key. */
  function Listed(key: string): Option<string> {
    var top := IndexOf(key, '/');
    if top == |key| then None
    else
      var end := top + 1 + IndexOf(key[top + 1..], '/');
      if end == |key| then None else Some(key[..end + 1])
  }

  /** The second segment of a key with two: the id of the run the key can belong to. */
  function OwnerId(key: string): Option<string> {
    if Listed(key).None? then None
    else Some(Listed(key).value[IndexOf(key, '/') + 1..|Listed(key).value| - 1])
  }

  lemma OwnerOfRunKey(alias: string, runId: string, key: string)
    requires SlashFree(alias) && SlashFree(runId) && RunPrefix(alias, runId) <= key
    ensures OwnerId(key) == Some(runId)
  {
    ListedOfRun(alias, runId, key);
    assert RunPrefix(alias, runId)[|alias| + 1..|RunPrefix(alias, runId)| - 1] == runId;
  }

  lemma ListedOfRun(alias: string, runId: string, key: string)
    requires SlashFree(alias) && SlashFree(runId) && RunPrefix(alias, runId) <= key
    ensures Listed(key) == Some(RunPrefix(alias, runId))
    ensures IndexOf(key, '/') == |alias|
  {
    var p := RunPrefix(alias, runId);
    var tail := key[|p|..];
    KeyParts(alias, runId, key, tail);
    IndexOfAfter(alias, '/', runId + "/" + tail);
    IndexOfAfter(runId, '/', tail);
  }

  lemma KeyParts(alias: string, runId: string, key: string, tail: string)
    requires RunPrefix(alias, runId) <= key && tail == key[|RunPrefix(alias, runId)|..]
    ensures key == alias + ['/'] + (runId + "/" + tail)
    ensures key[|alias| + 1..] == runId + ['/'] + tail
    ensures key[..|alias| + 1 + |runId| + 1] == RunPrefix(alias, runId)
  {
  }

  lemma ListedShape(key: string) returns (alias: string, runId: string)
    requires Listed(key).Some?
    ensures SlashFree(alias) && SlashFree(runId)
    ensures Listed(key).value == RunPrefix(alias, runId) <= key
  {
    var top := IndexOf(key, '/');
    var n := IndexOf(key[top + 1..], '/');
    alias, runId := key[..top], key[top + 1..][..n];
    TwoSegments(key, top, n);
  }

  lemma TwoSegments(key: string, top: nat, n: nat)
    requires top + 1 + n < |key| && key[top] == '/' && key[top + 1 + n] == '/'
    ensures key[..top + 1 + n + 1] == RunPrefix(key[..top], key[top + 1..][..n])
  {
    var alias, runId := key[..top], key[top + 1..][..n];
    assert key[..top + 1] == alias + "/";
    assert key[..top + 1 + n] == key[..top + 1] + runId;
    assert key[..top + 1 + n + 1] == key[..top + 1 + n] + "/";
  }

  /** Slash-free segments give every key at most one run prefix, so run prefixes are incomparable. */
  lemma OnePrefixPerKey(a: string, r: string, a': string, r': string, key: string)
    requires SlashFree(a) && SlashFree(r) && SlashFree(a') && SlashFree(r')
    requires RunPrefix(a, r) <= key && RunPrefix(a', r') <= key
    ensures a == a' && r == r'
  {
    ListedOfRun(a, r, key);
    ListedOfRun(a', r', key);
    assert a == RunPrefix(a, r)[..|a|] && a' == RunPrefix(a', r')[..|a'|];
    assert r == RunPrefix(a, r)[|a| + 1..|RunPrefix(a, r)| - 1];
    assert r' == RunPrefix(a', r')[|a'| + 1..|RunPrefix(a', r')| - 1];
  }

  lemma RunIdOfPrefix(alias: string, runId: string)
    requires SlashFree(alias) && SlashFree(runId) && runId != ""
    ensures RunIdOf(RunPrefix(alias, runId)) == runId
    ensures ScanMarker(RunPrefix(alias, runId)) == RunPrefix(alias, runId) + RETENTION_MARKER
  {
    var p := RunPrefix(alias, runId);
    var body := alias + ['/'] + runId;
    assert p[..|p| - 1] == body;
    assert body[|body| - 1] == runId[|runId| - 1] && runId[|runId| - 1] in runId;
    assert StripTrailing(p, '/') == StripTrailing(body, '/') == body;
    LastOfTwo(alias, '/', runId);
    assert body + "/" == p;
  }

  lemma RunKeysAreTidy(alias: string, runId: string)
    requires SafeName(alias) && RunId(runId)
    ensures SlashFree(alias) && SlashFree(runId)
    ensures Tidy(RunPrefix(alias, runId))
  {
  }

  /**
   * The URI `log` records round-trips for every alias `log` accepts but those that carry the final
   * newline the alias pattern lets through.
   */
  lemma ParseInvertsArtifactsUri(b: string, alias: string, runId: string)
    requires LegalBucket(b) && MatchesSafeId(alias) && RunId(runId)
    ensures ParseS3Uri(ArtifactsUri(b, alias, runId)) == Ok(ParsedS3Uri(b, RunPrefix(alias, runId)))
            <==> SafeName(alias)
  {
    var p := RunPrefix(alias, runId);
    UriNamesItsPrefix(b, p);
    if SafeName(alias) {
      RunKeysAreTidy(alias, runId);
    } else {
      assert '\n' in p by { assert p[|alias| - 1] == '\n'; }
    }
  }

  /** The URI of an alias with the final newline names the prefix of the alias without it. */
  lemma NewlineAliasIsMissed(b: string, alias: string, runId: string)
    requires LegalBucket(b) && MatchesSafeId(alias) && !SafeName(alias) && RunId(runId)
    ensures var bare := BeforeFinalNewline(alias);
            SafeName(bare) && ParseS3Uri(ArtifactsUri(b, alias, runId)) == Ok(ParsedS3Uri(b, RunPrefix(bare, runId)))
  {
    var bare := BeforeFinalNewline(alias);
    RunKeysAreTidy(bare, runId);
    assert forall c :: c in bare ==> AlphaNumeric(c) || c in {'.', '_', '-'};
    assert forall c :: c in "/" + runId + "/" ==> c == '/' || c in runId;
    NewlineIsDropped(bare, "/" + runId + "/");
    assert alias == bare + "\n";
    assert RunPrefix(alias, runId) == bare + "\n" + ("/" + runId + "/");
    assert RunPrefix(bare, runId) == bare + ("/" + runId + "/");
    ParseOfUri(b, RunPrefix(alias, runId));
    TidyPathSurvives(RunPrefix(bare, runId));
  }

  lemma NewlineApart(bare: string, runId: string, k: string)
    requires RunPrefix(bare + "\n", runId) <= k
    ensures !(RunPrefix(bare, runId) <= k)
  {
    assert k[|bare|] == RunPrefix(bare + "\n", runId)[|bare|] == '\n';
    assert RunPrefix(bare, runId)[|bare|] == '/';
  }

  lemma NewlineIsDropped(a: string, z: string)
    requires (forall c :: c in a ==> c !in UNSAFE) && (forall c :: c in z ==> c !in UNSAFE)
    ensures Without(a + "\n" + z, UNSAFE) == a + z
  {
    WithoutKeeps(a, UNSAFE);
    WithoutKeeps(z, UNSAFE);
    WithoutAppend(a, "\n", UNSAFE);
    WithoutAppend(a + "\n", z, UNSAFE);
    assert "\n"[1..] == "" && Without("\n", UNSAFE) == "";
  }

  /** The alias an artifacts URI names: without the final newline. */
  function Bare(alias: string): string { if SafeName(alias) then alias else BeforeFinalNewline(alias) }

  lemma UriOfAlias(b: string, alias: string, runId: string)
    requires LegalBucket(b) && MatchesSafeId(alias) && RunId(runId)
    ensures SafeName(Bare(alias)) && SlashFree(alias)
    ensures ParseS3Uri(ArtifactsUri(b, alias, runId)) == Ok(ParsedS3Uri(b, RunPrefix(Bare(alias), runId)))
  {
    AliasHasNoSlash(alias);
    if SafeName(alias) {
      ParseInvertsArtifactsUri(b, alias, runId);
    } else {
      NewlineAliasIsMissed(b, alias, runId);
    }
  }

  lemma AliasHasNoSlash(alias: string)
    requires MatchesSafeId(alias)
    ensures SlashFree(alias)
  {
    var bare := BeforeFinalNewline(alias);
    if !SafeName(alias) {
      assert alias == bare + "\n";
    }
  }

  lemma OneMarkerPerPrefix(a: string, a': string, runId: string)
    requires SlashFree(a) && SlashFree(a') && SlashFree(runId) && runId != ""
    ensures ScanMarker(RunPrefix(a, runId)) == ScanMarker(RunPrefix(a', runId)) ==> a == a'
  {
    RunIdOfPrefix(a, runId);
    RunIdOfPrefix(a', runId);
    if ScanMarker(RunPrefix(a, runId)) == ScanMarker(RunPrefix(a', runId)) {
      OnePrefixPerKey(a, runId, a', runId, ScanMarker(RunPrefix(a, runId)));
    }
  }

  /**
   * The marker `hold` writes lies under the prefix its URI names, and is the marker the janitor scans
   * for exactly when the alias is free of the final newline.
   */
  lemma HoldMarksWhatTheSweepReads(b: string, alias: string, runId: string)
    requires LegalBucket(b) && MatchesSafeId(alias) && RunId(runId)
    ensures MarkerKey(ArtifactsUri(b, alias, runId)) == Ok(ParsedS3Uri(b, ScanMarker(RunPrefix(Bare(alias), runId))))
    ensures MarkerKey(ArtifactsUri(b, alias, runId)) == Ok(ParsedS3Uri(b, ScanMarker(RunPrefix(alias, runId))))
            <==> SafeName(alias)
    ensures RunPrefix(Bare(alias), runId) <= ScanMarker(RunPrefix(Bare(alias), runId))
  {
    UriOfAlias(b, alias, runId);
    RunKeysAreTidy(Bare(alias), runId);
    RunIdOfPrefix(Bare(alias), runId);
    OneMarkerPerPrefix(alias, Bare(alias), runId);
  }

  // ---- the mount ----

  /** `os.path.join` on POSIX. */
  function PathJoin(base: string, rel: string): string {
    if "/" <= rel then rel
    else if base == "" || base[|base| - 1] == '/' then base + rel
    else base + "/" + rel
  }

  function LocalDirForMount(uri: string, mount: string, expected: Option<string>): Result<string, UriError> {
    match ParseS3Uri(uri)
    case Err(e) => Err(e)
    case Ok(u) =>
      if expected.Some? && u.bucket != expected.value then Err(OtherBucket) else Ok(PathJoin(mount, u.key))
  }

  lemma LocateOfRun(b: string, mount: string, a: string, r: string)
    requires LegalBucket(b) && MatchesSafeId(a) && RunId(r)
    ensures SafeName(Bare(a))
    ensures LocalDirForMount(ArtifactsUri(b, a, r), mount, Some(b)) == Ok(MountBase(mount) + RunPrefix(Bare(a), r))
  {
    UriOfAlias(b, a, r);
    RunKeysAreTidy(Bare(a), r);
  }

  function MountBase(mount: string): (base: string)
    ensures mount <= base
  {
    if mount == "" || mount[|mount| - 1] == '/' then mount else mount + "/"
  }

  /**
   * Two runs of the mounted bucket are located in directories of which neither contains the other,
   * exactly when their ids differ or their aliases do in more than the final newline.
   */
  lemma LocateKeepsRunsApart(b: string, mount: string, a: string, r: string, a': string, r': string)
    requires LegalBucket(b) && MatchesSafeId(a) && RunId(r) && MatchesSafeId(a') && RunId(r')
    ensures var d, d' := LocalDirForMount(ArtifactsUri(b, a, r), mount, Some(b)),
                         LocalDirForMount(ArtifactsUri(b, a', r'), mount, Some(b));
            d.Ok? && d'.Ok? && mount <= d.value && mount <= d'.value &&
            (!(d.value <= d'.value) && !(d'.value <= d.value) <==> (Bare(a), r) != (Bare(a'), r'))
  {
    LocateOfRun(b, mount, a, r);
    LocateOfRun(b, mount, a', r');
    RunKeysAreTidy(Bare(a), r);
    RunKeysAreTidy(Bare(a'), r');
    NotNested(MountBase(mount), RunPrefix(Bare(a), r), RunPrefix(Bare(a'), r'));
    NotNested(MountBase(mount), RunPrefix(Bare(a'), r'), RunPrefix(Bare(a), r));
    if (Bare(a), r) != (Bare(a'), r') {
      RunsAreIncomparable(Bare(a), r, Bare(a'), r');
      RunsAreIncomparable(Bare(a'), r', Bare(a), r);
    }
  }

  lemma RunsAreIncomparable(a: string, r: string, a': string, r': string)
    requires SlashFree(a) && SlashFree(r) && SlashFree(a') && SlashFree(r') && (a, r) != (a', r')
    ensures !(RunPrefix(a, r) <= RunPrefix(a', r'))
  {
    if RunPrefix(a, r) <= RunPrefix(a', r') {
      OnePrefixPerKey(a, r, a', r', RunPrefix(a', r'));
    }
  }

  lemma NotNested(base: string, p: string, q: string)
    ensures base + p <= base + q <==> p <= q
  {
    assert p == (base + p)[|base|..] && q == (base + q)[|base|..];
    if base + p <= base + q {
      assert (base + q)[..|base + p|] == base + p;
      assert q[..|p|] == (base + q)[|base|..|base + p|];
    }
  }

  // ---- what parsing makes of a text put together from its parts ----

  /** A query or fragment with its mark, or nothing. */
  function Behind(mark: char, part: Option<string>): string {
    match part
    case None => ""
    case Some(s) => [mark] + s
  }

  predicate Says(part: Option<string>) { part.Some? && part.value != "" }

  predicate Lacks(s: string, chars: set<char>) { forall c :: c in s ==> c !in chars }

  /** The parts can be told apart again, and `urlparse` deletes nothing of them. */
  predicate Apart(netloc: string, path: string, query: Option<string>, fragment: Option<string>) {
    Lacks(netloc, {'/', '?', '#', '\t', '\r', '\n'}) && Lacks(path, {'?', '#', '\t', '\r', '\n'}) &&
    (path != "" ==> path[0] == '/') &&
    (query.Some? ==> Lacks(query.value, {'#', '\t', '\r', '\n'})) &&
    (fragment.Some? ==> Lacks(fragment.value, {'\t', '\r', '\n'}))
  }

  function PathAndMore(path: string, query: Option<string>, fragment: Option<string>): string {
    path + Behind('?', query) + Behind('#', fragment)
  }

  lemma LacksAt(s: string, chars: set<char>)
    requires Lacks(s, chars)
    ensures forall j :: 0 <= j < |s| ==> s[j] !in chars
  {
    assert forall j :: 0 <= j < |s| ==> s[j] in s;
  }

  lemma MarkEnds(head: string, mark: char, part: Option<string>)
    requires mark !in head
    ensures IndexOf(head + Behind(mark, part), mark) == |head|
  {
    IndexOfAfter(head, mark, if part.Some? then part.value else "");
    TextBehind(head, mark, part);
  }

  lemma TextBehind(head: string, mark: char, part: Option<string>)
    ensures head + Behind(mark, part) == if part.Some? then head + [mark] + part.value else head
  {
  }

  lemma PathOfParts(path: string, query: Option<string>, fragment: Option<string>)
    requires Apart("", path, query, fragment)
    ensures PathOf(PathAndMore(path, query, fragment)) ==
            if Says(query) || Says(fragment) then Err(QueryOrFragment) else Ok(path)
  {
    var head := path + Behind('?', query);
    MarkEnds(head, '#', fragment);
    MarkEnds(path, '?', query);
    assert PathAndMore(path, query, fragment)[..|head|] == head && head[..|path|] == path;
    assert PathAndMore(path, query, fragment)[..|path|] == path;
  }

  lemma NetlocOfParts(netloc: string, tail: string)
    requires Lacks(netloc, {'/', '?', '#'}) && (tail != "" ==> tail[0] in {'/', '?', '#'})
    ensures NetlocEnd(netloc + tail) == |netloc|
  {
    var s := netloc + tail;
    LacksAt(netloc, {'/', '?', '#'});
    assert forall j :: 0 <= j < |netloc| ==> s[j] == netloc[j];
    assert tail != "" ==> s[|netloc|] == tail[0];
  }

  lemma TailBegins(path: string, query: Option<string>, fragment: Option<string>)
    requires path != "" ==> path[0] == '/'
    ensures var tail := PathAndMore(path, query, fragment); tail != "" ==> tail[0] in {'/', '?', '#'}
  {
  }

  lemma ParseRestOfParts(netloc: string, path: string, query: Option<string>, fragment: Option<string>)
    requires Apart(netloc, path, query, fragment)
    ensures ParseRest("//" + (netloc + PathAndMore(path, query, fragment))) ==
            if Says(query) || Says(fragment) then Err(QueryOrFragment)
            else if netloc == "" then Err(NoBucket)
            else Ok(ParsedS3Uri(netloc, StripLeading(path, '/')))
  {
    var tail := PathAndMore(path, query, fragment);
    var rest := "//" + (netloc + tail);
    TailBegins(path, query, fragment);
    NetlocOfParts(netloc, tail);
    PathOfParts(path, query, fragment);
    RestParts(netloc, tail);
  }

  lemma RestParts(netloc: string, tail: string)
    ensures var rest := "//" + (netloc + tail);
            rest[2..] == netloc + tail && rest[2..2 + |netloc|] == netloc && rest[2 + |netloc|..] == tail
  {
  }

  lemma NothingDropped(netloc: string, path: string, query: Option<string>, fragment: Option<string>)
    requires Apart(netloc, path, query, fragment)
    ensures Lacks("//" + (netloc + PathAndMore(path, query, fragment)), UNSAFE)
  {
    assert Lacks("//", UNSAFE) && Lacks(netloc, UNSAFE) && Lacks(path, UNSAFE);
    assert Lacks(Behind('?', query), UNSAFE) && Lacks(Behind('#', fragment), UNSAFE);
  }

  lemma SchemeTaken(s: char, rest: string)
    requires s in {'s', 'S'} && Lacks(rest, UNSAFE)
    ensures ParseS3Uri([s] + "3:" + rest) == ParseRest(rest)
  {
    SchemeText(s, rest);
    CleanText([s] + "3:" + rest);
  }

  lemma SchemeText(s: char, rest: string)
    requires s in {'s', 'S'} && Lacks(rest, UNSAFE)
    ensures var url := [s] + "3:" + rest;
            url[0] == s > ' ' && url[1] == '3' && url[2] == ':' && url[3..] == rest && Lacks(url, UNSAFE)
  {
  }

  lemma CleanText(uri: string)
    requires uri != "" && uri[0] > ' ' && Lacks(uri, UNSAFE)
    ensures Without(StripControl(uri), UNSAFE) == uri
  {
    WithoutKeeps(uri, UNSAFE);
  }

  lemma NoNetloc(rest: string)
    requires !(|rest| >= 2 && rest[0] == '/' && rest[1] == '/')
    ensures ParseRest(rest).Err?
  {
  }

  /**
   * Parsing undoes putting together: what comes after the scheme is split again into a bucket, a path
   * that loses its leading slashes, a query and a fragment, and a non-empty one of the latter is refused.
   */
  lemma ParseUndoesPuttingTogether(s: char, netloc: string, path: string,
                                   query: Option<string>, fragment: Option<string>)
    requires s in {'s', 'S'} && Apart(netloc, path, query, fragment)
    ensures ParseS3Uri([s] + "3:" + ("//" + (netloc + (path + Behind('?', query) + Behind('#', fragment))))) ==
            if Says(query) || Says(fragment) then Err(QueryOrFragment)
            else if netloc == "" then Err(NoBucket)
            else Ok(ParsedS3Uri(netloc, StripLeading(path, '/')))
  {
    NothingDropped(netloc, path, query, fragment);
    SchemeTaken(s, "//" + (netloc + PathAndMore(path, query, fragment)));
    ParseRestOfParts(netloc, path, query, fragment);
  }

  /** Only `s3:` opens an S3 URI, in either case of the letter, and without `//` there is no bucket. */
  lemma OtherSchemesAreRefused(uri: string)
    requires uri != "" && uri[0] > ' ' && Lacks(uri, UNSAFE)
    ensures var s3 := |uri| >= 3 && (uri[0] == 's' || uri[0] == 'S') && uri[1] == '3' && uri[2] == ':';
            (!s3 ==> ParseS3Uri(uri) == Err(NotS3)) &&
            (s3 && !(|uri| >= 5 && uri[3] == '/' && uri[4] == '/') ==> ParseS3Uri(uri).Err?)
  {
    CleanText(uri);
    if |uri| >= 3 && !(|uri| >= 5 && uri[3] == '/' && uri[4] == '/') {
      NoNetloc(uri[3..]);
    }
  }

  /** Blanks and control characters in front of a URI do not count. */
  lemma {:induction false} BlanksInFront(blanks: string, uri: string)
    requires forall c :: c in blanks ==> c <= ' '
    ensures ParseS3Uri(blanks + uri) == ParseS3Uri(uri)
  {
    if blanks == "" {
      assert blanks + uri == uri;
    } else {
      assert (blanks + uri)[0] == blanks[0] && blanks[0] in blanks;
      assert (blanks + uri)[1..] == blanks[1..] + uri;
      assert forall c :: c in blanks[1..] ==> c in blanks;
      BlanksInFront(blanks[1..], uri);
    }
  }

  /** Nor do tabs, carriage returns and newlines inside it. */
  lemma DroppedInside(uri: string)
    requires uri != "" && uri[0] > ' '
    ensures ParseS3Uri(uri) == ParseS3Uri(Without(uri, UNSAFE))
  {
    DroppedOnce(uri);
  }

  lemma DroppedOnce(uri: string)
    requires uri != "" && uri[0] > ' '
    ensures Without(StripControl(Without(uri, UNSAFE)), UNSAFE) == Without(StripControl(uri), UNSAFE)
  {
    WithoutIsSafe(uri, UNSAFE);
    CleanText(Without(uri, UNSAFE));
  }

  /** A tidy key in a legal bucket is read back. */
  lemma PlainUriReadsBack(bucket: string, key: string)
    requires LegalBucket(bucket)
    ensures Tidy(key) ==> ParseS3Uri("s3://" + bucket + "/" + key) == Ok(ParsedS3Uri(bucket, key))
  {
    assert Uri(bucket, key) == "s3://" + bucket + "/" + key;
    if Tidy(key) { UriNamesItsPrefix(bucket, key); }
  }

  /** A bucket alone has no key, with or without the slash behind it, and takes no marker. */
  lemma BucketsHaveNoKey(bucket: string)
    requires LegalBucket(bucket)
    ensures ParseS3Uri("s3://" + bucket) == ParseS3Uri("s3://" + bucket + "/") == Ok(ParsedS3Uri(bucket, ""))
    ensures MarkerKey("s3://" + bucket) == MarkerKey("s3://" + bucket + "/") == Err(EmptyKey)
  {
    BareBucket(bucket, "");
    BareBucket(bucket, "/");
    assert "s3://" + bucket + "" == "s3://" + bucket;
  }

  lemma BareBucket(bucket: string, path: string)
    requires LegalBucket(bucket) && (path == "" || path == "/")
    ensures ParseS3Uri("s3://" + bucket + path) == Ok(ParsedS3Uri(bucket, ""))
    ensures MarkerKey("s3://" + bucket + path) == Err(EmptyKey)
  {
    assert Lacks(bucket, {'/', '?', '#', '\t', '\r', '\n'});
    ParseUndoesPuttingTogether('s', bucket, path, None, None);
    BucketUri(bucket, path);
    assert StripLeading(path, '/') == "";
  }

  lemma BucketUri(bucket: string, path: string)
    ensures "s3://" + bucket + path == ['s'] + "3:" + ("//" + (bucket + (path + "" + "")))
  {
  }

  /** The marker of any prefix that a URI names: its slashes at the end become one. */
  lemma MarkerOfAnyPrefix(bucket: string, key: string, slashes: string)
    requires LegalBucket(bucket) && Tidy(key) && key[|key| - 1] != '/' && forall c :: c in slashes ==> c == '/'
    ensures MarkerKey("s3://" + bucket + "/" + (key + slashes)) ==
            Ok(ParsedS3Uri(bucket, key + "/" + ".retention-keep"))
  {
    PlainUriReadsBack(bucket, key + slashes);
    SlashesAtTheEnd(key, slashes);
  }

  lemma {:induction false} SlashesAtTheEnd(key: string, slashes: string)
    requires key != "" && key[|key| - 1] != '/' && forall c :: c in slashes ==> c == '/'
    ensures StripTrailing(key + slashes, '/') == key
    decreases |slashes|
  {
    if slashes == "" {
      assert key + slashes == key;
    } else {
      var s := key + slashes;
      var rest := slashes[..|slashes| - 1];
      assert slashes == rest + [slashes[|slashes| - 1]];
      assert forall c :: c in slashes <==> c in rest || c == slashes[|slashes| - 1];
      assert s[..|s| - 1] == key + rest && slashes[|slashes| - 1] in slashes;
      SlashesAtTheEnd(key, rest);
    }
  }

  /** A run of the mounted bucket is located at its own prefix under the mount, one of any other bucket nowhere. */
  lemma LocatedUnderTheMount(b: string, mount: string, a: string, r: string, expected: Option<string>)
    requires LegalBucket(b) && SafeName(a) && RunId(r) && mount != "" && mount[|mount| - 1] != '/'
    ensures LocalDirForMount(ArtifactsUri(b, a, r), mount, expected) ==
            if expected.Some? && expected.value != b then Err(OtherBucket)
            else Ok(mount + "/" + (a + "/" + r + "/"))
  {
    ParseInvertsArtifactsUri(b, a, r);
    RunKeysAreTidy(a, r);
  }

  /** The marker of a run is the object `.retention-keep` directly under its prefix. */
  lemma MarkerOfALoggedRun(b: string, alias: string, runId: string)
    requires LegalBucket(b) && SafeName(alias) && RunId(runId)
    ensures MarkerKey(ArtifactsUri(b, alias, runId)) ==
            Ok(ParsedS3Uri(b, alias + "/" + runId + "/" + ".retention-keep"))
  {
    HoldMarksWhatTheSweepReads(b, alias, runId);
    RunKeysAreTidy(alias, runId);
    RunIdOfPrefix(alias, runId);
  }
}
