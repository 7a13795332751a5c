# A verified model of the experiment platform

The platform keeps two stores that share no transaction: an S3 bucket that holds the artifacts of
runs, and an MLflow index that holds their status, tags and content. Producers call `log`, consumers
call `resolve`, `locate`, `hold` and `purge`, and a janitor deletes the objects no live run owns. This
project models that protocol twice and connects the two models:

* **Methods over mutable state.** The loops of the repository (paginated listings, the two-level
  enumeration, the prefix scan, the sweep, batched deletes, plan-then-upload, the retry loop, the
  download, the paginated searches, `log`, `hold`, `purge`) are methods of classes with loop
  invariants, each proved against a declarative description of its outcome.
* **One transition system** (`lifecycle*.dfy`). Every call that the program makes to either store is a
  step of its own, and the steps of any number of producers and callers and of one janitor interleave
  freely. Its theorems are about every state of every finite run. `LifecycleSweep` proves that the
  janitor's steps, left alone, reach the verdict of the janitor's loops, and `LifecycleProgress` that
  a `log` left alone runs through to a complete run.

A third, smaller part is the argv template language and the bounding of advice in `analysis_mcp`.

| file | part of the program |
|---|---|
| `text.dfy`, `ids.dfy`, `layout.dfy` | string operations, the identity contract, keys, URIs, marker, mount paths |
| `paging.dfy`, `s3.dfy` | how the services answer listings, uploads and deletes |
| `upload.dfy`, `prefixes.dfy`, `disk.dfy`, `download.dfy`, `paths.dfy` | the transfers of `s3_layout.py`, and where a key lands on a disk |
| `tracking.dfy`, `search.dfy` | what the index holds, and the paginated reads |
| `sweep.dfy`, `janitor.dfy`, `sweep_effects.dfy`, `sweep_tidy.dfy`, `sweep_reach.dfy`, `sweep_meaning.dfy` | the sweep: what it should find, its loops, its effects, their exact conditions, and the report in plain terms |
| `store.dfy` | `log`, `hold` and `purge` as one caller performs them |
| `lifecycle.dfy` and `lifecycle_*.dfy` | the transition system and its theorems |
| `templates.dfy`, `advice.dfy` | token expansion, and shaping of the advice |

## What the environment may do

* A listing is cut into pages anywhere, empty pages among them. It reports each key of the moment once.
* An upload call that raises may have stored the object or not; which, and what the check behind it
  sees, is an arbitrary function of the key and the attempt.
* `delete_objects` may refuse any of its keys, and may raise after deleting some.
* Every other call that raises has had no effect, except `set_terminated(FINISHED)`. That one may take
  effect and raise; the transition system has a step for it (`FinishAmbiguously`).
* The server answers the canary and each prefix's query as it likes; a sweep asks once per prefix, so
  the answers are an arbitrary function of the prefix. The protocol theorems add that the server is
  authoritative at the moment it answers.
* The server issues run ids that are 32 hexadecimal digits and that neither the index nor any key has
  carried before. Nothing restores a soft-deleted run. A write from outside the platform lands under a
  prefix of no known run.
* The bucket counts the delete requests that failed and the index the calls that raised, so that a method
  can be shown to report an error exactly when a service did.
* Deleting a run in the index raises a code that says the run is gone exactly when it is absent or
  deleted already.
* There is one bucket. A URI that names another one is reported as `OtherBucket`.
* Time is a real number. SHA-256 is an arbitrary function from contents to strings.
* In the transition system the janitor may list any run prefixes, but an orphan it goes on to delete is
  one whose purge stays with its own run (`StaysHome`, below), and the aliases of its producers are free
  of the final newline the pattern lets through.
* Nobody outside the program changes the status of a dead run (absent for good, soft-deleted, FAILED
  or KILLED), and a producer whose run is killed from outside makes no further call. "Dead is
  absorbing" rests on both.
* The canary also passes when the server finds a run with the canary's id, as in the code.

## Where the code does less than its documentation says

Each of these has a lemma with the input that shows it, next to the exact condition under which the
promise holds.

* **A prefix is deleted through its URI, and parsing the URI drops characters.** `urlparse` deletes
  tabs, carriage returns and newlines, `lstrip("/")` deletes leading slashes, and `?` or `#` in a prefix
  makes the parser refuse it. The prefix is reached exactly when it is `Tidy` (`UriNamesItsPrefix`). A
  sweep that returns has emptied its orphans, and nothing else, exactly when all of them are
  (`EmptiedExactlyWhenTidy`), and exactly then the next sweep finds none (`SecondSweepFindsNothing`). One
  orphan with `?` or `#` keeps every apply sweep from returning (`MarkedOrphanBlocksTheSweep`). The purge
  of an orphan touches no run but the one it was judged by exactly when parsing leaves something of its
  first segment and all of its id (`PurgeStaysWithItsRun`). A stray key `/<id>/...`, or one whose run id
  carries a final newline, makes a sweep delete the objects of a FINISHED run
  (`LeadingSlashReclaimsAnOwnedRun`, `FinalNewlineReclaimsAnOwnedRun`).
* **`$` admits a final newline.** An alias that ends in one passes validation, and its artifacts URI
  does not read back; every other accepted alias reads back (`ParseInvertsArtifactsUri`). What its URI
  names is the prefix of the alias without the newline (`NewlineAliasIsMissed`), so that the cleanup of
  a failed `log` deletes nothing and reports success (`CleanUp`, `Log`), and that `hold` writes a marker
  the janitor never looks for (`HoldMarksWhatTheSweepReads`).
* **FINISHED implies complete, but for two cases.** If `set_terminated` takes effect and raises, the run
  is still complete (`AmbiguityAloneLosesNothing`), but the cleanup deletes its artifacts and the
  swallowed failure of `fail_run` leaves a FINISHED run without them
  (`AmbiguousFinishLosesTheArtifacts`). And `hold` empties a non-empty artifact that is named
  `.retention-keep` (`HoldEmptiesAnArtifact`). `FinishedMeansComplete` states completeness, real bytes
  included, as an equivalence: a usable, unpurged run is complete exactly when its own cleanup has
  cleared none of its objects and no hold has overwritten one.
* **A hold protects what has not been condemned, by whatever name.** The marker is read during the scan
  and the deletion comes later, and a prefix is also deleted by the URI of another one that parsing turns
  into it. From a protected state on, no path at all on which no purge of the run begins loses an object
  of the prefix (`HoldsSurvive`, `ProtectedIsNotLosable`). Conversely, a held prefix that is not protected
  can lose an object on such a path (`LosableIffUnprotected`, and for the state after a `hold`,
  `HoldProtects`): a purge has begun; the run's own `log` can still delete a stored object; the janitor is
  going to delete something of the prefix; or an unmarked object is stored under another name of it.
  While a sweep is scanning, the converse is claimed for a breaker that cannot trip (a fraction of one or
  more). A hold between scan and deletion is lost (`HoldAfterTheScanIsLost`); one placed before the run's
  own `log` has finished goes with the prefix when that call fails (`HoldBeforeTheCleanupIsLost`); and a
  stray object under the alias with the final newline costs the hold of the alias without it
  (`ResidueTakesTheHold`).
* **The collision check of `upload_artifacts` catches equal keys only.** `x` next to `x/y` is a legal
  upload that no disk can hold: a download gives the upload back exactly when no uploaded path is an
  ancestor of another (`DownloadUndoesUpload`), and these two never come back
  (`NestedUploadNeverComesBack`). A download whose destination is `/` succeeds exactly when
  there is no file to write, since the check compares with `//` (`DownloadToTheRootFails`).
* **`search` filters after it has taken `max_results` rows.** `FilterAfterTake` says exactly when that is
  the first `max_results` usable runs; a search for one result can miss the only usable run
  (`SearchCanMissTheOnlyUsableRun`).
* **Registration accepts templates that expansion sends literally**: `{file:{dir}/*}` and `{t{dir}mp}`
  (`GlobWithDirIsSentLiterally`, `FormedPlaceholderIsSentLiterally`). `ExpansionIsComplete` gives the
  exact condition.
* **The advice limit** holds exactly up to nine digits of dropped characters (`BoundHoldsIff`), and
  there are longer texts (`LongTextExceedsTheLimit`).

## Model

| member | source | states |
|---|---|---|
| `Layout.UriNamesItsPrefix` | experiment_store/s3_layout.py:65-77 | parsing the URI of a key prefix gives the prefix back exactly when the prefix has no leading slash and none of tab, newline, carriage return, `?`, `#` |
| `Layout.ParseUndoesPuttingTogether` | experiment_store/s3_layout.py:65-77 | a URI put together from a bucket, a path, a query and a fragment is split into them again: a non-empty query or fragment is refused first, then a missing bucket, and the key is the path without its leading slashes; `S3:` opens a URI as `s3:` does |
| `Layout.OtherSchemesAreRefused` | experiment_store/s3_layout.py:68-76 | any other opening is refused as no S3 URI, and without `//` there is no bucket |
| `Layout.BlanksInFront` | experiment_store/s3_layout.py:68-68 | blanks and control characters in front of a URI make no difference |
| `Layout.DroppedInside` | experiment_store/s3_layout.py:68-68 | nor do tabs, carriage returns and newlines inside it |
| `Layout.BucketsHaveNoKey` | experiment_store/s3_layout.py:73-77 | the URI of a bucket alone names no key, with or without a slash behind it, and takes no marker |
| `Layout.ParseInvertsArtifactsUri` | experiment_store/s3_layout.py:56-77 | for every accepted alias and every run id, parsing inverts `artifacts_uri` exactly when the alias is free of the final newline |
| `Layout.NewlineAliasIsMissed` | experiment_store/s3_layout.py:61-77 | for an accepted alias with the final newline, the artifacts URI names the prefix of the alias without it |
| `Layout.RunIdOfPrefix` | experiment_store/janitor.py:162-164 | the id the janitor reads off a run prefix is the run id it was built from, and the marker it looks for stands directly under the prefix |
| `Layout.OnePrefixPerKey` | experiment_store/s3_layout.py:56-58 | no key stands under the prefixes of two different runs |
| `Layout.RunsAreIncomparable` | experiment_store/s3_layout.py:56-58 | for all slash-free aliases and ids, the prefix of one run is never a prefix of another run's |
| `Layout.HoldMarksWhatTheSweepReads` | experiment_store/s3_layout.py:222-233 | for every accepted alias, the marker `hold` derives from the artifacts URI lies under the prefix the URI names, and is the marker the janitor scans for exactly when the alias is free of the final newline |
| `Layout.MarkerOfALoggedRun` | experiment_store/s3_layout.py:222-226 | for every run logged under an alias without the newline, the marker of its URI is the object `.retention-keep` directly under `<alias>/<run id>/` |
| `Layout.MarkerOfAnyPrefix` | experiment_store/s3_layout.py:222-226 | for any key a URI names, however many slashes end it, the marker is behind a single one |
| `Layout.LocateKeepsRunsApart` | experiment_store/s3_layout.py:209-219 | for all accepted aliases, two runs are located below the mount in directories of which neither contains the other exactly when their ids differ or their aliases do in more than the final newline |
| `Layout.LocatedUnderTheMount` | experiment_store/s3_layout.py:209-219 | a run of the mounted bucket is located at `<mount>/<alias>/<run id>/`, and one of any other bucket is refused |
| `Ids.IdentityAccepted` | experiment_store/ids.py:47-68 | character by character, which identities are accepted, and which of the four fields is blamed for any other |
| `Ids.JudgedIdsAreHex` | experiment_store/janitor.py:43-43 | the pattern of run ids accepts exactly 32 characters out of `0`-`9` and `a`-`f` with at most one final newline |
| `Upload.BackoffSteps` | experiment_store/s3_layout.py:126-127 | the delays of the retry loop add up to 0.5*(2^k - 1) seconds, at most 7.5 within the allowed attempts |
| `Upload.WhatAnAttemptSettles` | experiment_store/s3_layout.py:109-127 | in terms of the answers of the two calls: verified exactly when the head call answered with an equal whole-file checksum, or without a comparable one with the size; settled for good by one of the five literal codes; another attempt for any other code |
| `Upload.UploadVerified` | experiment_store/s3_layout.py:87-128 | over every sequence of answers: the digest exactly when the last head call answered with the base64 checksum, or with an absent or composite one and the right length; a mismatch for any other answer; refused exactly with one of the five literal codes; exhausted exactly when the fifth attempt raised another one; every earlier attempt raised another one; 0, 0.5, 1.5, 3.5 or 7.5 seconds slept; nothing but this key written, and with these bytes |
| `Upload.PlanStaysInside` | experiment_store/s3_layout.py:154-164 | planned keys lie under the run's prefix and are distinct exactly when the relative paths are |
| `Upload.BuildPlan` | experiment_store/s3_layout.py:154-164 | a plan exists exactly when no path is missing and no two files collide, holds every file once in walking order, and otherwise the error is that of the first artifact that cannot be planned |
| `Upload.EveryFileIsPlanned` | experiment_store/s3_layout.py:146-164 | exactly the files of the present artifacts are planned, each with its bytes at `<alias>/<run id>/<relative path>` |
| `Upload.PlannedInOrder` | experiment_store/s3_layout.py:154-164 | artifact by artifact and in walking order: which place of the plan each file has |
| `Upload.UploadArtifacts` | experiment_store/s3_layout.py:146-169 | succeeds exactly when everything can be planned and every planned object has an attempt among the first five that is confirmed by its head call while all before it raised a code worth another attempt; an unplannable list leaves the bucket untouched; a failed transfer has stored the objects before the first that does not land, fails with the error its attempts call for and touches none behind it; success stores every planned object and returns its key |
| `Prefixes.ListPrefix` | experiment_store/s3_layout.py:172-186 | for every page split, each key under the URI's prefix is listed exactly once |
| `Prefixes.TargetOfAnyBucket` | experiment_store/s3_layout.py:248-256 | the URI of a tidy key names that key, the URI of a bucket alone names none, and those of other buckets are refused |
| `Prefixes.TargetOfALoggedRun` | experiment_store/s3_layout.py:248-256 | deleting by the URI of a logged run empties `<alias>/<run id>/` |
| `Prefixes.DeleteKeys` | experiment_store/s3_layout.py:257-266 | over batches of any number: an error is returned exactly when a delete request failed, and then only some of these keys are gone; a return means every key is gone and counted |
| `Prefixes.DeletePrefix` | experiment_store/s3_layout.py:248-266 | fails exactly when a delete request did; every key that does not begin with the prefix stays with its bytes; a return means that no key that does is left, and counts them; an error loses keys of this prefix only; an empty key and an unparsable URI change nothing |
| `Prefixes.RepeatFinishesTheJob` | experiment_store/s3_layout.py:248-266 | a delete that failed half way and is repeated leaves what one clean delete leaves |
| `Prefixes.OtherRunsKeepTheirKeys` | experiment_store/s3_layout.py:248-266 | however a delete of one run's prefix ends, every other run keeps its keys and bytes |
| `Prefixes.WriteRetentionMarker` | experiment_store/s3_layout.py:222-233 | writes one empty object under the URI's prefix and nothing else, and refuses an empty prefix |
| `Disk.InsideMeansBelow` | experiment_store/s3_layout.py:200-202 | the textual escape check lets through exactly the destination and what lies below it, and nothing when the destination is `/` |
| `Disk.PlainRelLandsBelow` | experiment_store/s3_layout.py:197-200 | a key whose remainder is a plain relative path lands at that path below the destination |
| `Paths.LeavingCancelsEntering` | experiment_store/s3_layout.py:198-200 | wherever it stands in a path, a name with `..` behind it makes no difference |
| `Paths.StayingChangesNothing` | experiment_store/s3_layout.py:198-200 | wherever they stand, empty segments and `.` make no difference |
| `Paths.WalkReduces` | experiment_store/s3_layout.py:198-200 | a path leads where its reduced form does: so many directories up, stopping at the root, and then down the names that are left |
| `Paths.WaysByCounting` | experiment_store/s3_layout.py:198-200 | it goes up by the largest excess of `..` over names in any of its heads, and is left with as many names as the balance of the whole asks for |
| `Paths.RefusedExactlyWhenItLeadsOut` | experiment_store/s3_layout.py:200-202 | the escape check refuses exactly the remainders that lead out: an absolute one that does not begin with the destination, or one that climbs above it and does not come back by the same names; into `/`, every remainder that is left with a name |
| `Paths.InsidePathsLandInside` | experiment_store/s3_layout.py:198-202 | a remainder none of whose heads has more `..` than names is not refused and lands below the destination at what is left of it |
| `Paths.DownloadRefusesWhatLeadsOut` | experiment_store/s3_layout.py:197-204 | no download succeeds if the remainder of some file key leads out, and none reports an escape without such a key |
| `Paths.ClimbingOut` | experiment_store/s3_layout.py:200-202 | `../x` is refused for every destination other than one named `x` |
| `Paths.ClimbingBack` | experiment_store/s3_layout.py:198-202 | `a/../x` lands at `x` below the destination |
| `Paths.FilesInPlainTerms` | experiment_store/s3_layout.py:196-198 | the prefix itself and keys that end in a slash are no files, every other key under the prefix is |
| `Paths.PlainFilesArrive` | experiment_store/s3_layout.py:189-206 | a download that succeeds has written and reported a file for every key with a plain remainder |
| `Paths.PlaceholdersWriteNothing` | experiment_store/s3_layout.py:196-206 | over nothing but placeholders every download succeeds and changes no file |
| `Disk.SplitIsInjective` | experiment_store/s3_layout.py:131-143 | different relative paths are different segment lists, so no two files share a target |
| `Download.DownloadPrefix` | experiment_store/s3_layout.py:189-206 | success writes every file key and only those, with their bytes; an escape error names a key that lands outside; a write error has an obstruction as its cause; every stop leaves only files of listed keys |
| `Download.DownloadSucceedsExactlyWhen` | experiment_store/s3_layout.py:189-206 | a download succeeds exactly when every file key lands inside the destination and no directory, file or other key stands in its way |
| `Download.NothingWrittenOutside` | experiment_store/s3_layout.py:189-206 | whatever the keys and however it ends, a download changes no file outside its destination, removes none, and makes no directory but at, below or above it |
| `Download.DownloadToTheRootFails` | experiment_store/s3_layout.py:200-202 | a download into `/` succeeds exactly when there is no file to write, and writes none in any case |
| `Download.DownloadUndoesUpload` | experiment_store/s3_layout.py:131-206 | into a fresh directory, downloading an upload succeeds exactly when no path is an ancestor of another, and then gives back the relative paths and bytes and nothing else |
| `Download.NestedUploadNeverComesBack` | experiment_store/s3_layout.py:157-206 | counterexample: `x` next to `x/y` can be planned and stored, and no download of them into a fresh directory succeeds |
| `Search.ResolveAlias` | experiment_store/mlflow_io.py:155-168 | for every page split, all rows of the alias in order, or the lookup error |
| `Search.SearchIndex` | experiment_store/mlflow_io.py:170-199 | for every page split and every number of results, exactly the first `max_results` rows of the query, all of them if there are fewer, and none for a number that is not positive |
| `Search.SearchStore` | experiment_store/store.py:120-129 | exactly those of the first `max_results` rows that are FINISHED and not deleted, or all of them on request |
| `Search.FilterAfterTake` | experiment_store/store.py:127-129 | filtering after taking gives the first `max_results` usable runs exactly when every taken row is usable or no usable row was left behind |
| `Search.SearchCanMissTheOnlyUsableRun` | experiment_store/store.py:127-129 | counterexample: with a failed run ahead of a usable one, a search for one result finds none |
| `Search.SelectRun` | analysis_mcp/service.py:32-42 | by id: that run if it is FINISHED and not deleted; by alias and chip: over the start times, the first in the order of the server among those finished runs of the chip that no other one started after, a missing start time counting as 0; and an error exactly when there is none |
| `Sweep.ListedUris` | experiment_store/janitor.py:204-236 | a report list has no duplicates and holds exactly the URIs of the prefixes of its category |
| `Sweep.ReportMeans` | experiment_store/janitor.py:204-236 | each list of the report holds each prefix of its category once, and no prefix is in two lists |
| `Sweep.SilentRunsAreReported` | experiment_store/janitor.py:222-229 | a prefix whose run is RUNNING or SCHEDULED is neither on the orphan list nor on the kept list, and one silent past a stale window no shorter than the grace period is on the list of stale ones |
| `SweepMeaning.WhatTheServerSays` | experiment_store/janitor.py:85-93 | an answer counts for an orphan exactly when it carries the code RESOURCE_DOES_NOT_EXIST, or a run that is deleted, FAILED or KILLED; for live when it is RUNNING or SCHEDULED; any other exception is not authoritative |
| `SweepMeaning.ReportInPlainTerms` | experiment_store/janitor.py:204-236 | each of the five lists of the report by an equivalence over the keys, their dates and the characters of the id: orphans, held and stale prefixes have 32 hexadecimal digits as last segment, and a prefix not written lately is foreign exactly when it has not |
| `SweepMeaning.AnsweredInPlainTerms` | experiment_store/janitor.py:189-221 | a sweep aborts on its answers exactly when the canary, or the query for a settled prefix with a run id, got an exception with any other code |
| `SweepMeaning.BreakerInPlainTerms` | experiment_store/janitor.py:243-247 | the breaker trips exactly when there are at least five prefixes that are neither recent nor foreign, and more orphans among them than the fraction |
| `Sweep.BreakerBound` | experiment_store/janitor.py:244-252 | orphans never exceed the considered prefixes; a sweep let through purges at most max(4, floor(fraction * considered)); a fraction of one or more never stops a sweep |
| `Janitor.Janitor.ListCommonPrefixes` | experiment_store/janitor.py:122-134 | for every page split, each delimiter prefix exactly once |
| `Janitor.SecondLevel` | experiment_store/janitor.py:115-120 | the delimiter listing below a first segment reports exactly the two-segment prefixes of that segment |
| `Janitor.Janitor.ListRunPrefixes` | experiment_store/janitor.py:115-134 | the nested paginated listings yield each two-segment prefix that holds an object exactly once |
| `Janitor.Janitor.ScanPrefix` | experiment_store/janitor.py:136-160 | for every page split: the newest date under the prefix, if any is dated, whether the marker is there, and whether the prefix is empty |
| `Janitor.Janitor.FilePrefix` | experiment_store/janitor.py:208-235 | one prefix is put on the list of its declared category, and the sweep aborts exactly when the answer about it is not authoritative |
| `Janitor.Janitor.FindOrphans` | experiment_store/janitor.py:204-236 | a report exactly when the canary and every query were answered authoritatively, and then the declared report on every run prefix |
| `Janitor.Janitor.PurgeAll` | experiment_store/janitor.py:253-254 | returns exactly when no URI is refused and no delete request fails, and then exactly the keys under the reached prefixes are gone and counted; broken off, it has emptied what comes before in the list and touched nothing behind |
| `Janitor.Janitor.Sweep` | experiment_store/janitor.py:238-256 | fail closed: any non-authoritative answer aborts, an abort or a dry run leaves the bucket unchanged, the breaker aborts exactly when it trips, and an apply sweep purges the orphans of the report; it breaks off exactly when one of their URIs is refused or a delete request fails |
| `SweepEffects.SurvivorsKeepTheirCategory` | experiment_store/janitor.py:204-236 | after such a sweep every remaining prefix keeps its category, and none is an orphan |
| `SweepTidy.EmptiedExactlyWhenTidy` | experiment_store/janitor.py:253-254 | a sweep that returns has removed the keys under its orphans and no other key exactly when every orphan prefix is tidy, and then `deleted_objects` is their number |
| `SweepTidy.SecondSweepFindsNothing` | experiment_store/janitor.py:238-256 | at the same clock and with the same answers, a second sweep finds no orphan exactly when the first one's orphans were tidy; then it is answered, never trips the breaker and changes nothing |
| `SweepTidy.MarkedOrphanBlocksTheSweep` | experiment_store/s3_layout.py:71-72 | one orphan with `?` or `#` in its prefix keeps every apply sweep from returning |
| `SweepTidy.ReachOfPrefix` | experiment_store/s3_layout.py:248-256 | what deleting by URI reaches for any listed prefix: nothing if the prefix holds `?` or `#`, else the prefix without control characters and leading slashes |
| `SweepReach.PurgeStaysWithItsRun` | experiment_store/janitor.py:162-254 | purging an orphan `x/y/` reaches keys of the run `y` and of no other exactly when its URI is refused, or parsing leaves something of `x` and all of `y` |
| `SweepEffects.LeadingSlashReclaimsAnOwnedRun` | experiment_store/janitor.py:210-254 | counterexample: a stray key with a leading slash makes every sweep that returns delete an object of a run it keeps |
| `SweepEffects.FinalNewlineReclaimsAnOwnedRun` | experiment_store/janitor.py:43-43 | counterexample: so does a stray key whose run id carries a final newline |
| `Store.ExperimentStore.FinalizeRun` | experiment_store/mlflow_io.py:118-130 | FINISHED is set only after all content and the URI are recorded; it fails exactly when one call raised, and leaves the run RUNNING; other runs are untouched |
| `Store.InjectionIsHarmless` | experiment_store/store.py:81-84 | the namespace is added exactly where the caller names none, nothing of the caller's content is changed, and it never makes a content valid or invalid |
| `Store.ExperimentStore.CleanUp` | experiment_store/store.py:92-99 | never touches a key outside the run's prefix; clean exactly when no delete request failed, and then the bucket is as `log` found it, unless the alias carries the final newline, in which case nothing is deleted; the run ends FAILED exactly when that call did not raise |
| `Store.ExperimentStore.Log` | experiment_store/store.py:73-101 | for every identity: rejects exactly the invalid identities and the contents with one of the six reserved tags, before any effect; otherwise succeeds exactly when the artifacts can be planned, every planned object lands and no call to the index raises; whatever the content, a run that was created carries its chip, region, workload, alias and schema version 1 as tags; success means a usable run with all of the caller's content, the namespace where the caller names none, its URI and every planned object stored; every failure after creation gives its cause, leaves the run FAILED unless that call raised too, and after a clean delete the bucket as before, unless the alias carries the final newline, in which case a failure to finalize leaves every object behind; other runs and keys are never touched |
| `Store.ExperimentStore.Hold` | experiment_store/store.py:149-155 | writes exactly the marker derived from the run's URI, or reports why not; a missing or empty URI tag is reported as such |
| `Store.ExperimentStore.Purge` | experiment_store/store.py:158-169 | the prefix is emptied before the run is marked deleted, and the first fails exactly when the URI is refused or a delete request fails; a run that is absent or deleted already is a success, and any other failed call an error that leaves the index unchanged; without a URI no object is touched; the count; no other run or key is touched |
| `LifecycleKeys.StepKeepsKeys` | experiment_store/store.py:73-169 | every step of every actor keeps the key invariant: a recorded URI is that of the run's own prefix, and objects appear only under ids already issued or never issued again |
| `LifecycleSafety.DeadStaysDead` | experiment_store/janitor.py:166-183 | dead is absorbing: no step revives a run that is absent for good, soft-deleted, FAILED or KILLED |
| `LifecycleSafety.OrphanIsDead` | experiment_store/janitor.py:166-183 | an authoritative answer classified as orphan means the run the prefix belongs to is dead |
| `LifecycleSafety.StepKeepsSafe` | experiment_store/janitor.py:204-256 | every step of every actor keeps the safety invariant: statuses follow the producers, and all the janitor has committed to delete is dead |
| `LifecycleSafety.JanitorReclaimsOnlyDeadRuns` | experiment_store/janitor.py:166-256 | in every interleaving, whatever orphans are purged short of those whose purge leaves their own run: each run that an object the janitor deletes can belong to is, at that moment and in every later state, absent, soft-deleted, FAILED or KILLED |
| `LifecycleSafety.JanitorDeletesUnderRunIds` | experiment_store/janitor.py:217-254 | in every interleaving, each object the janitor deletes stands under a prefix of two segments of which the last one that is not empty is 32 lower-case hexadecimal digits |
| `LifecycleSafety.UploadsInFlightAreSpared` | experiment_store/janitor.py:214-216 | in every interleaving, a sweep that began less than the grace period after an upload, and finds the object as it was stored, passes its prefix by |
| `LifecycleIdentity.CreatedRunsCarryTheirIdentity` | experiment_store/mlflow_io.py:109-116 | in every reachable state, every run a `log` has created carries the chip, region, workload and alias it was called with and schema version 1, whatever its caller logs |
| `LifecycleFrames.LogTouchesOwnKeys` | experiment_store/store.py:88-101 | no step of a `log` call, on any path, touches a key of another run |
| `LifecycleFrames.CallTouchesOwnKeys` | experiment_store/store.py:149-169 | `hold` and `purge` touch keys of their own run only |
| `LifecycleFrames.StepKeepsCleanup` | experiment_store/store.py:92-99 | every step keeps the cleanup invariant: a cleanup under way covers every key of its run but a marker written since |
| `LifecycleFrames.FailedLogLeavesNothingBehind` | experiment_store/store.py:92-101 | a raised `log`, in any interleaving: the run is FINISHED exactly when its finishing call was ambiguous and FAILED was not recorded; a clean cleanup leaves at most a marker; with FAILED recorded, a later sweep past the grace period files the residue as orphan or held |
| `LifecycleFrames.LogLeavesOthersAlone` | experiment_store/store.py:88-101 | in any run of the system a `log` step changes no other run's keys or index entry |
| `LifecycleComplete.StepKeepsHistory` | experiment_store/store.py:86-101 | every step keeps the history: no hold comes before all objects are confirmed, and cleared keys belong to a call that has reached its cleanup |
| `LifecycleComplete.StepKeepsOne` | experiment_store/store.py:86-101 | every step of every actor keeps what an intact run has stored and logged: each confirmed object is gone only if a cleanup cleared it, and otherwise has its bytes unless a hold wrote over its name |
| `LifecycleComplete.FinishedMeansComplete` | experiment_store/mlflow_io.py:8-12 | in every reachable state, a usable run with no purge begun has its own URI, all its content and all its objects with the producer's bytes exactly when its own cleanup has cleared none of them and no hold has overwritten a non-empty artifact of the marker's name; only a cleanup behind an ambiguous finishing call clears any |
| `LifecycleRetention.StepKeepsProtection` | experiment_store/janitor.py:139-152 | no step of any actor but the start of that run's purge ends a protection or removes an object of the prefix |
| `LifecycleRetention.HoldsSurvive` | experiment_store/janitor.py:22-23 | over unbounded histories of sweeps, clock advances, soft-deletions and other runs' steps, a protected prefix loses no object until a purge of its run begins |
| `LifecycleHolds.ProtectedIsNotLosable` | experiment_store/janitor.py:22-23 | from a protected state, no path of any length on which no purge of the run begins loses an object of the prefix |
| `LifecycleHolds.LosableIffUnprotected` | experiment_store/janitor.py:211-254 | some path without a purge of the run loses an object of a held prefix exactly when a purge has begun, the run's own `log` can still delete a stored object, the janitor is going to delete something of the prefix by any name, or an unmarked object is stored under another name of it; in a sweep that is still scanning, for a breaker that cannot trip |
| `LifecycleHolds.HoldProtects` | experiment_store/store.py:149-155 | in every reachable state, a prefix that `hold` leaves protected can lose nothing on a path without a purge of its run, and unless a breaker may yet stop a sweep that is still scanning, exactly such a prefix |
| `LifecycleHolds.CondemnedIsEmptied` | experiment_store/janitor.py:253-254 | from any state with prefixes to purge, the janitor's steps alone empty all that their URIs reach, whatever marker has been written since |
| `LifecycleHolds.EveryPurgeEmpties` | experiment_store/janitor.py:253-254 | whatever batches the janitor's steps delete in, when it is through with its list nothing is left of what the list reaches |
| `LifecycleHolds.ResidueTakesTheHold` | experiment_store/janitor.py:204-254 | counterexample, from any initial state with a held run and an unmarked stray object under its alias with the final newline: with no purge begun and no sweep under way, a run of the system without a purge of that run ends without the marker |
| `LifecycleHolds.HoldAfterTheScanIsLost` | experiment_store/janitor.py:211-254 | counterexample, from any initial state with an old orphan: a run of the system in which a hold placed between scan and deletion is deleted with the prefix |
| `LifecycleHolds.HoldBeforeTheCleanupIsLost` | experiment_store/store.py:92-99 | counterexample, from any initial state and for any call that can be planned: a hold placed before the finishing call is deleted by the cleanup when that call fails |
| `LifecycleAmbiguity.AmbiguityAloneLosesNothing` | experiment_store/mlflow_io.py:130-130 | from any initial state and for any call that can be planned: the run that stops right after an ambiguous finishing call is complete |
| `LifecycleAmbiguity.AmbiguousFinishLosesTheArtifacts` | experiment_store/mlflow_io.py:130-136 | counterexample, from any initial state and for any call that uploads something: a run of the system that ends with a usable run all of whose planned objects are gone |
| `LifecycleProgress.UndisturbedLogCompletes` | experiment_store/store.py:86-101 | from any initial state, any valid call with plannable artifacts has an undisturbed run through all its steps, and it ends usable and complete |
| `LifecycleAmbiguity.HoldEmptiesAnArtifact` | experiment_store/store.py:149-155 | counterexample, from any initial state and for any call with a non-empty artifact of the marker's name: `log` ends with a complete run, and the first `hold` leaves the planned object stored without its bytes |
| `LifecycleSweep.SweepStepsReachTheReport` | experiment_store/janitor.py:204-252 | the janitor's steps, left alone, reach the verdict of the loops: an abort exactly when an answer is not authoritative or the breaker trips, else the orphans of the report in its order, with nothing deleted so far |
| `LifecycleSweep.SweepStepsReachTheVerdict` | experiment_store/janitor.py:189-252 | the same from the canary on: the whole refinement, with no second step when the canary is not answered authoritatively |
| `Templates.CleanIsAccepted` | analysis_mcp/analyzers.py:40-53 | every token made of whole placeholders and plain characters passes registration |
| `Templates.StrayBraceIsRefused` | analysis_mcp/analyzers.py:46-53 | a token that is no selector and is clean but for one brace is refused |
| `Templates.TyposAreRefused` | analysis_mcp/analyzers.py:46-53 | so is every token with braces that neither selects nor embeds anything |
| `Templates.GlobExactly` | analysis_mcp/analyzers.py:66-72 | a selector is an opening, a glob of one line and a closing brace, with at most a newline behind, and its glob is what stands between |
| `Templates.FileTokenExpands` | analysis_mcp/analyzers.py:62-69 | `{file:GLOB}` becomes the one match of its glob, and is an error that gives the number of matches for any other number |
| `Templates.FilesTokenExpands` | analysis_mcp/analyzers.py:70-75 | `{files:GLOB}` becomes all matches of its glob in order, and is an error exactly when there are none |
| `Templates.CleanTokenExpands` | analysis_mcp/analyzers.py:60-61 | every clean token becomes one argument, its text with the directories in place of the placeholders |
| `Templates.PlainTokenStays` | analysis_mcp/analyzers.py:76-76 | a token without braces becomes itself |
| `Templates.CleanIsDirect` | analysis_mcp/analyzers.py:60-61 | on such tokens the two sequential replacements equal one simultaneous substitution and leave no brace |
| `Templates.NoBraceLeftIffClean` | analysis_mcp/analyzers.py:48-61 | substitution leaves no brace, for all brace-free directories, exactly on such tokens |
| `Templates.ExpansionIsComplete` | analysis_mcp/analyzers.py:40-76 | an accepted token delivers exactly one match, at least one match, or one brace-free argument, for all brace-free directories, exactly when selectors embed no placeholder and all else is clean |
| `Templates.ArgvIsDelivered` | analysis_mcp/analyzers.py:116-117 | an expanded template is, token by token and in order, what its tokens stand for |
| `Templates.FirstErrorWins` | analysis_mcp/analyzers.py:116-117 | an expansion succeeds exactly when every token does, and otherwise fails with the error of the first one that does not |
| `Templates.GlobWithDirIsSentLiterally` | analysis_mcp/analyzers.py:46-61 | counterexample: `{file:{dir}/*}` is accepted and its glob is never looked up |
| `Templates.FormedPlaceholderIsSentLiterally` | analysis_mcp/analyzers.py:48-61 | counterexample: `{t{dir}mp}` is accepted and sent with its braces |
| `Advice.ClippingIsAccountedFor` | analysis_mcp/analyzers.py:82-87 | a clipped text keeps its head, and kept plus the number a reader reads is the original length |
| `Advice.BudgetIs` | analysis_mcp/analyzers.py:84-85 | the budget the model keeps is the one the program computes from the marker and the slack |
| `Advice.BoundHoldsIff` | analysis_mcp/analyzers.py:79-87 | the result is within the limit, and bounding it again changes nothing, exactly when the text is within the limit or the dropped count has at most nine digits |
| `Advice.LongTextExceedsTheLimit` | analysis_mcp/analyzers.py:82-87 | counterexample: a text whose clipped form is longer than the limit |
| `Advice.FailureStaysVisible` | analysis_mcp/analyzers.py:120-127 | a failing tool's advice opens with its exit marker whatever the output, whenever the marker fits the budget |
| `Advice.FailureAdviceInFull` | analysis_mcp/analyzers.py:120-127 | for every non-zero code the advice is the bounded text of marker, stderr, a line and stdout |
| `Advice.ExitCodeReadsBack` | analysis_mcp/analyzers.py:127-127 | the exit code in the marker reads back as the code, negative ones included |
| `Advice.SuccessSaysSomething` | analysis_mcp/analyzers.py:128-133 | a successful tool's advice is never blank |
| `Advice.SuccessAdviceInFull` | analysis_mcp/analyzers.py:128-133 | output with a visible character becomes the advice, bounded |
| `Advice.BlankIsNoFinding` | analysis_mcp/analyzers.py:130-132 | blanks and line ends alone are reported as no finding |

## Left out

- `analysis_mcp/server.py`, command lines, `env.py`, `config.py` and everything under `examples/`: plumbing without a property of its own.
- Subprocesses, sockets, port polling, timeouts and temporary directories of the analyzers; `find_matches` is an arbitrary function from globs to lists of paths.
- The inventory analyzer and the dropping of noise lines, which is an arbitrary function on the output.
- SHA-256 and base64; the checks of the signer and of encryption.
- MLflow's filter language (a query denotes an arbitrary list of rows), the finiteness and rendering of metrics, and the race for creating an experiment in `_experiment_id`.
- Requests other than uploads, deletes and index calls that raise (`put_object` of the marker, `download_file`), and a local file that vanishes between planning and upload.
- Listing requests that raise: they would end a sweep, a delete or a download before its first change or between two of its changes, as an error of a delete does.
- `has_retention_marker`, the messages of `_staged_dir`, and the missing `mount_base` that `locate` refuses.
- Symlinks and the case-folding of file systems: paths are lexical and POSIX. The walk of a directory is the list of files it yields.
- Bracketed hosts and Unicode normalisation in `urlparse`; bucket names are assumed legal.
- Rounding: times, delays and the orphan fraction are real numbers.
- Lifecycle expiry of objects and IAM: the model lets no one but the modelled actors delete.
- The transition system lets the janitor list any run prefixes, in any order, which covers every listing and every listing that is out of date.
- LifecycleSafety.JanitorReclaimsOnlyDeadRuns: orphans whose purge would leave their own run are never deleted in the transition system, for the two counterexamples of `SweepEffects` break it there; a refused URI ends the sweep.
- LifecycleHolds.HoldProtects: does not say when an unprotected hold is lost while a sweep is scanning whose breaker may yet trip, nor when the janitor's list holds an orphan whose purge would leave its own run.
- LifecycleProgress.UndisturbedLogCompletes: does not model aliases with the final newline, whose URI does not name their prefix.
- LifecycleSafety.DeadStaysDead: does not model an operator who revives a dead run, nor a producer that goes on after its run was killed from outside; either can lose objects between judgement and deletion.
- Store.ExperimentStore.Log: does not model a finishing call that takes effect and raises, which the transition system does.
