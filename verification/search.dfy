/** The paginated reads of mlflow_io.py, store.py and analysis_mcp/service.py. */
module Search {
  import opened Wrappers
  import opened Paging
  import opened Tracking
  import opened Ids

  datatype Query = Query(alias: Option<string>, filter: string, orderBy: seq<string>)

  datatype LookupError = NoExperiment | NoRun | Unresolved(reply: Reply) | MissingArguments

  class TrackingServer {
    const experiments: set<string>
    /** The rows a query denotes, in the order the server returns them. */
    const rows: Query -> seq<RunRef>
    /** What `get_run` answers. */
    const lookup: string -> Reply

    constructor (experiments: set<string>, rows: Query -> seq<RunRef>, lookup: string -> Reply)
      ensures this.experiments == experiments && this.rows == rows && this.lookup == lookup
    {
      this.experiments, this.rows, this.lookup := experiments, rows, lookup;
    }

    /** `search_runs` */
    method SearchRuns(q: Query, maxResults: nat, token: Option<Cursor<RunRef>>) returns (page: Page<RunRef>)
      requires maxResults > 0
      ensures |page.items| <= maxResults
      ensures token.Some? ==> Serves(page, token.value)
      ensures token.None? ==> page.items + Owed(page.next) == rows(q)
    {
      var cursor;
      if token.Some? {
        cursor := token.value;
      } else {
        cursor := Open(rows(q));
      }
      page := Serve(cursor, maxResults);
    }
  }

  function Take<T>(xs: seq<T>, n: int): seq<T> {
    if n <= 0 then [] else if n < |xs| then xs[..n] else xs
  }

  lemma TakeOfHead<T>(head: seq<T>, tail: seq<T>, n: int)
    requires n <= |head| || tail == []
    ensures Take(head + tail, n) == Take(head, n)
  {
  }

  function UsableOf(refs: seq<RunRef>): (r: seq<RunRef>)
    ensures |r| <= |refs|
  {
    if refs == [] then []
    else
      var n := |refs| - 1;
      UsableOf(refs[..n]) + if refs[n].info.Usable() then [refs[n]] else []
  }

  /** `MlflowIO.resolve_alias` */
  method ResolveAlias(server: TrackingServer, alias: string, pageSize: nat)
    returns (r: Result<seq<RunRef>, LookupError>)
    requires pageSize > 0
    ensures r == if alias in server.experiments then Ok(server.rows(Query(Some(alias), "", [])))
                 else Err(NoExperiment)
  {
    if alias !in server.experiments {
      return Err(NoExperiment);
    }
    var q := Query(Some(alias), "", []);
    var page := server.SearchRuns(q, pageSize, None);
    var refs := page.items;
    while page.next.Some?
      invariant refs + Owed(page.next) == server.rows(q)
      decreases if page.next.Some? then 1 + |page.next.value.rest| + page.next.value.idle else 0
    {
      page := server.SearchRuns(q, pageSize, page.next);
      refs := refs + page.items;
    }
    assert refs + [] == refs;
    r := Ok(refs);
  }

  /** `MlflowIO.search`: an empty alias searches every experiment. */
  method SearchIndex(server: TrackingServer, alias: string, filter: string, orderBy: seq<string>,
                     pageSize: nat, maxResults: int)
    returns (r: Result<seq<RunRef>, LookupError>)
    requires pageSize > 0
    ensures r == if alias != "" && alias !in server.experiments then Err(NoExperiment)
                 else if server.experiments == {} then Ok([])
                 else Ok(Take(server.rows(Query(if alias != "" then Some(alias) else None, filter, orderBy)),
                              maxResults))
    ensures r.Ok? && server.experiments != {} ==>
              var rows := server.rows(Query(if alias != "" then Some(alias) else None, filter, orderBy));
              if maxResults <= 0 then r.value == []
              else if maxResults <= |rows| then r.value == rows[..maxResults]
              else r.value == rows
  {
    if alias != "" && alias !in server.experiments {
      return Err(NoExperiment);
    }
    if server.experiments == {} {
      return Ok([]);
    }
    var q := Query(if alias != "" then Some(alias) else None, filter, orderBy);
    var refs: seq<RunRef> := [];
    var token: Option<Cursor<RunRef>> := None;
    var more := true;
    ghost var owed := server.rows(q);
    while |refs| < maxResults && more
      invariant refs + owed == server.rows(q)
      invariant token.Some? ==> owed == token.value.rest
      invariant token.None? ==> (more ==> refs == []) && (!more ==> owed == [])
      invariant (more || token.None?) && (maxResults > 0 ==> |refs| <= maxResults)
      decreases more && token.None?,
                if token.Some? then 1 + |token.value.rest| + token.value.idle else 0
    {
      var limit := if pageSize < maxResults - |refs| then pageSize else maxResults - |refs|;
      var page := server.SearchRuns(q, limit, token);
      refs := refs + page.items;
      owed := Owed(page.next);
      token := page.next;
      more := token.Some?;
    }
    TakeOfHead(refs, owed, maxResults);
    r := Ok(Take(refs, maxResults));
  }

  /** `ExperimentStore.search`: the usable ones of the first `maxResults` rows. */
  method SearchStore(server: TrackingServer, alias: string, filter: string, orderBy: seq<string>,
                     maxResults: int, includeUnfinished: bool)
    returns (r: Result<seq<RunRef>, LookupError>)
    ensures r == if alias != "" && alias !in server.experiments then Err(NoExperiment)
                 else if server.experiments == {} then Ok([])
                 else
                   var first := Take(server.rows(Query(if alias != "" then Some(alias) else None, filter, orderBy)),
                                     maxResults);
                   Ok(if includeUnfinished then first else UsableOf(first))
    ensures r.Ok? && server.experiments != {} ==>
              var rows := server.rows(Query(if alias != "" then Some(alias) else None, filter, orderBy));
              forall x :: x in r.value <==>
                x in (if maxResults <= 0 then [] else if maxResults <= |rows| then rows[..maxResults] else rows) &&
                (includeUnfinished || (x.info.status == FINISHED && !x.info.deleted))
  {
    r := SearchIndex(server, alias, filter, orderBy, 1000, maxResults);
    if r.Ok? && !includeUnfinished {
      UsableMembers(r.value);
      r := Ok(UsableOf(r.value));
    }
  }

  lemma {:induction false} UsableAppend(a: seq<RunRef>, b: seq<RunRef>)
    ensures UsableOf(a + b) == UsableOf(a) + UsableOf(b)
    decreases |b|
  {
    if b == [] {
      assert a + b == a;
    } else {
      var n := |b| - 1;
      assert (a + b)[..|a + b| - 1] == a + b[..n];
      UsableAppend(a, b[..n]);
    }
  }

  lemma {:induction false} UsableMembers(refs: seq<RunRef>)
    ensures forall x :: x in UsableOf(refs) <==> x in refs && x.info.Usable()
  {
    if refs != [] {
      var n := |refs| - 1;
      UsableMembers(refs[..n]);
      assert refs == refs[..n] + [refs[n]];
    }
  }

  lemma {:induction false} UsableAll(refs: seq<RunRef>)
    ensures |UsableOf(refs)| == |refs| <==> forall x :: x in refs ==> x.info.Usable()
    ensures |UsableOf(refs)| == |refs| ==> UsableOf(refs) == refs
  {
    if refs != [] {
      var n := |refs| - 1;
      UsableAll(refs[..n]);
      assert refs == refs[..n] + [refs[n]];
      assert forall x :: x in refs <==> x in refs[..n] || x == refs[n];
    }
  }

  lemma NoneUsable(refs: seq<RunRef>)
    ensures UsableOf(refs) == [] <==> forall x :: x in refs ==> !x.info.Usable()
  {
  }

  lemma HeadOfSum<T>(u: seq<T>, v: seq<T>, m: nat)
    requires |u| <= m
    ensures Take(u + v, m) == u <==> |u| == m || v == []
  {
  }

  /**
   * `search` filters after it has taken `maxResults` rows. That gives the first `maxResults` usable
   * runs exactly when every row taken is usable or no usable row was left behind.
   */
  lemma FilterAfterTake(rows: seq<RunRef>, maxResults: nat)
    ensures UsableOf(Take(rows, maxResults)) == Take(UsableOf(rows), maxResults) <==>
            (forall x :: x in Take(rows, maxResults) ==> x.info.Usable()) ||
            (forall x :: x in rows[|Take(rows, maxResults)|..] ==> !x.info.Usable())
  {
    var head := Take(rows, maxResults);
    var tail := rows[|head|..];
    assert rows == head + tail;
    UsableAppend(head, tail);
    UsableAll(head);
    NoneUsable(tail);
    HeadOfSum(UsableOf(head), UsableOf(tail), maxResults);
  }

  /** One run that failed before one that can be used: a search for one result finds none. */
  lemma SearchCanMissTheOnlyUsableRun()
    ensures var failed := RunRef("a", RunInfo(FAILED, false, None, map[]));
            var usable := RunRef("b", RunInfo(FINISHED, false, None, map[]));
            UsableOf(Take([failed, usable], 1)) == [] && Take(UsableOf([failed, usable]), 1) == [usable]
  {
    var failed := RunRef("a", RunInfo(FAILED, false, None, map[]));
    var usable := RunRef("b", RunInfo(FINISHED, false, None, map[]));
    UsableAppend([failed], [usable]);
    assert [failed] + [usable] == [failed, usable];
    assert [failed][..0] == [] && [usable][..0] == [];
    assert UsableOf([failed]) == [] && UsableOf([usable]) == [usable];
    assert [failed, usable][..1] == [failed];
  }

  // ---- the latest run of a chip ----

  function StartKey(r: RunRef): int {
    match r.info.startTime
    case None => 0
    case Some(t) => t
  }

  function OfChip(refs: seq<RunRef>, chip: string): seq<RunRef> {
    if refs == [] then []
    else
      var n := |refs| - 1;
      OfChip(refs[..n], chip) + if refs[n].info.TagValue(CHIP_TAG) == Some(chip) then [refs[n]] else []
  }

  lemma OfChipMembers(refs: seq<RunRef>, chip: string)
    ensures forall x :: x in OfChip(refs, chip) <==> x in refs && x.info.TagValue(CHIP_TAG) == Some(chip)
  {
  }

  /** `x` started before `y` did; a run without a start time counts for one started at 0. */
  predicate Earlier(x: RunRef, y: RunRef) {
    match (x.info.startTime, y.info.startTime)
    case (Some(t), Some(u)) => t < u
    case (Some(t), None) => t < 0
    case (None, Some(u)) => 0 < u
    case (None, None) => false
  }

  /** Python's `max(runs, key=...)`: the first of the runs that started last. */
  function Latest(runs: seq<RunRef>): (i: nat)
    requires runs != []
    ensures i < |runs|
    ensures forall j :: 0 <= j < |runs| ==> !Earlier(runs[i], runs[j])
    ensures forall j :: 0 <= j < i ==> Earlier(runs[j], runs[i])
  {
    var n := |runs| - 1;
    if n == 0 then 0
    else
      var best := Latest(runs[..n]);
      if StartKey(runs[n]) > StartKey(runs[best]) then n else best
  }

  /** The candidates among the rows, in their order. */
  function Chosen(rows: seq<RunRef>, chip: string): seq<RunRef> { OfChip(UsableOf(rows), chip) }

  predicate Fits(x: RunRef, chip: string) {
    x.info.status == FINISHED && !x.info.deleted && x.info.TagValue("chip") == Some(chip)
  }

  lemma OneMoreRow(rows: seq<RunRef>, chip: string)
    requires rows != []
    ensures var n := |rows| - 1;
            Chosen(rows, chip) == Chosen(rows[..n], chip) + if Fits(rows[n], chip) then [rows[n]] else []
  {
    var n := |rows| - 1;
    var head := UsableOf(rows[..n]);
    if rows[n].info.Usable() {
      assert (head + [rows[n]])[..|head|] == head;
    } else {
      assert UsableOf(rows) == head;
    }
  }

  /** The i-th candidate, where it stands among the rows, and who stands before it. */
  lemma {:induction false} PlaceOf(rows: seq<RunRef>, chip: string, i: nat) returns (m: nat)
    requires i < |Chosen(rows, chip)|
    ensures m < |rows| && rows[m] == Chosen(rows, chip)[i]
    ensures forall j :: 0 <= j < m && Fits(rows[j], chip) ==> rows[j] in Chosen(rows, chip)[..i]
    decreases |rows|
  {
    var n := |rows| - 1;
    var head := Chosen(rows[..n], chip);
    OneMoreRow(rows, chip);
    if i < |head| {
      m := PlaceOf(rows[..n], chip, i);
      assert Chosen(rows, chip)[..i] == head[..i];
    } else {
      m := n;
      ChosenMembers(rows[..n], chip);
      assert Chosen(rows, chip)[..i] == head;
      assert forall j :: 0 <= j < n ==> rows[j] in rows[..n];
    }
  }

  lemma ChosenMembers(rows: seq<RunRef>, chip: string)
    ensures forall x :: x in Chosen(rows, chip) <==> x in rows && Fits(x, chip)
  {
    UsableMembers(rows);
    OfChipMembers(UsableOf(rows), chip);
  }

  /** The run at row `m` is a candidate, none started after it, and every candidate before it started earlier. */
  predicate FirstOfTheLatest(rows: seq<RunRef>, chip: string, m: nat) {
    m < |rows| && Fits(rows[m], chip) &&
    (forall j :: 0 <= j < |rows| && Fits(rows[j], chip) ==> !Earlier(rows[m], rows[j])) &&
    (forall j :: 0 <= j < m && Fits(rows[j], chip) ==> Earlier(rows[j], rows[m]))
  }

  lemma LatestRow(rows: seq<RunRef>, chip: string) returns (m: nat)
    requires Chosen(rows, chip) != []
    ensures FirstOfTheLatest(rows, chip, m) && rows[m] == Chosen(rows, chip)[Latest(Chosen(rows, chip))]
  {
    var runs := Chosen(rows, chip);
    m := PlaceOf(rows, chip, Latest(runs));
    ChosenMembers(rows, chip);
    assert rows[m] in runs;
    forall j | 0 <= j < |rows| && Fits(rows[j], chip)
      ensures !Earlier(rows[m], rows[j])
    {
      assert rows[j] in rows && rows[j] in runs;
    }
  }

  /** `_select_run`; an empty string stands for an absent argument. */
  method SelectRun(server: TrackingServer, runId: string, alias: string, chip: string)
    returns (r: Result<RunRef, LookupError>)
    ensures runId != "" ==>
              r == match server.lookup(runId)
                   case Found(info) =>
                     if info.status == FINISHED && !info.deleted then Ok(RunRef(runId, info)) else Err(NoRun)
                   case Raised(_, _) => Err(Unresolved(server.lookup(runId)))
    ensures runId == "" && (alias == "" || chip == "") ==> r == Err(MissingArguments)
    ensures runId == "" && alias != "" && chip != "" ==>
              if alias !in server.experiments then r == Err(NoExperiment)
              else
                var rows := server.rows(Query(Some(alias), "", []));
                if r.Ok? then exists m: nat :: FirstOfTheLatest(rows, chip, m) && rows[m] == r.value
                else r == Err(NoRun) && forall x :: x in rows ==> !Fits(x, chip)
    ensures runId == "" && r.Ok? ==>
              forall x :: x in server.rows(Query(Some(alias), "", [])) && Fits(x, chip) ==>
                match x.info.startTime
                case Some(t) => t <= (if r.value.info.startTime.Some? then r.value.info.startTime.value else 0)
                case None => r.value.info.startTime.Some? ==> r.value.info.startTime.value >= 0
  {
    if runId != "" {
      var reply := server.lookup(runId);
      match reply {
        case Found(info) =>
          return if info.Usable() then Ok(RunRef(runId, info)) else Err(NoRun);
        case Raised(_, _) =>
          return Err(Unresolved(reply));
      }
    }
    if alias == "" || chip == "" {
      return Err(MissingArguments);
    }
    var resolved := ResolveAlias(server, alias, 1000);
    if resolved.Err? {
      return Err(resolved.error);
    }
    var runs := OfChip(UsableOf(resolved.value), chip);
    ChosenMembers(resolved.value, chip);
    if runs == [] {
      assert forall x :: x in resolved.value && Fits(x, chip) ==> x in runs;
      return Err(NoRun);
    }
    ghost var m := LatestRow(resolved.value, chip);
    r := Ok(runs[Latest(runs)]);
  }
}
