/**
 * How the services answer a listing: in consecutive pages cut anywhere, empty ones among them, each
 * but the last carrying a continuation token.
 */
module Paging {
  import opened Wrappers

  /** What a continuation token stands for: the results still owed and how many empty pages may come. */
  datatype Cursor<T> = Cursor(rest: seq<T>, idle: nat)

  datatype Page<T> = Page(items: seq<T>, next: Option<Cursor<T>>)

  function Owed<T>(next: Option<Cursor<T>>): seq<T> {
    match next
    case None => []
    case Some(c) => c.rest
  }

  /** `page` serves a piece of what `c` owes and leaves the remainder, closer to the end. */
  predicate Serves<T(==)>(page: Page<T>, c: Cursor<T>) {
    page.items + Owed(page.next) == c.rest &&
    (page.next.Some? ==> |page.next.value.rest| + page.next.value.idle < |c.rest| + c.idle)
  }

  method Open<T>(results: seq<T>) returns (c: Cursor<T>)
    ensures c.rest == results
  {
    var idle: nat :| idle >= 0;
    c := Cursor(results, idle);
  }

  method Serve<T(==)>(c: Cursor<T>, limit: nat) returns (page: Page<T>)
    requires limit > 0
    ensures Serves(page, c) && |page.items| <= limit
  {
    var n: nat :| n >= 0;
    if n > limit || n > |c.rest| {
      n := if limit < |c.rest| then limit else |c.rest|;
    }
    if n == 0 && c.idle == 0 {
      n := if |c.rest| > 0 then 1 else 0;
    }
    var items, rest := c.rest[..n], c.rest[n..];
    var more: bool := *;
    if |rest| > 0 || (more && c.idle > 0) {
      page := Page(items, Some(Cursor(rest, if n == 0 then c.idle - 1 else c.idle)));
    } else {
      page := Page(items, None);
    }
    assert items + rest == c.rest;
  }

  predicate NoDuplicates<T(==)>(xs: seq<T>) {
    forall i, j :: 0 <= i < j < |xs| ==> xs[i] != xs[j]
  }

  /** `xs` lists every member of `s` exactly once. */
  ghost predicate Lists<T(!new)>(xs: seq<T>, s: set<T>) {
    NoDuplicates(xs) && forall x :: x in xs <==> x in s
  }

  lemma ListedSize<T(!new)>(xs: seq<T>, s: set<T>)
    requires Lists(xs, s)
    ensures |xs| == |s|
  {
    if xs == [] {
      assert s == {};
    } else {
      var n := |xs| - 1;
      assert forall x :: x in xs[..n] <==> x in s - {xs[n]} by {
        assert xs == xs[..n] + [xs[n]];
      }
      ListedSize(xs[..n], s - {xs[n]});
    }
  }

  /** The service's own enumeration order is arbitrary. */
  method Enumerate<T(==, !new)>(s: set<T>) returns (xs: seq<T>)
    ensures Lists(xs, s)
  {
    xs := [];
    var left := s;
    while left != {}
      invariant left <= s && Lists(xs, s - left)
      decreases |left|
    {
      var x :| x in left;
      xs := xs + [x];
      left := left - {x};
    }
  }
}
