/** The string operations the layout and the analyzers are written with. */
module Text {
  /** Position of the first `c` in `s`, or `|s|`. */
  function IndexOf(s: string, c: char): (i: nat)
    ensures i <= |s|
    ensures i < |s| ==> s[i] == c
    ensures forall j :: 0 <= j < i ==> s[j] != c
  {
    if s == "" || s[0] == c then 0 else 1 + IndexOf(s[1..], c)
  }

  lemma IndexOfAfter(a: string, c: char, rest: string)
    requires c !in a
    ensures IndexOf(a + [c] + rest, c) == |a|
    ensures IndexOf(a, c) == |a|
  {
    var s := a + [c] + rest;
    assert s[|a|] == c;
    assert forall j :: 0 <= j < |a| ==> s[j] == a[j] && a[j] in a;
  }

  /** `s.lstrip(c)` */
  function StripLeading(s: string, c: char): (r: string)
    ensures |r| <= |s| && r == s[|s| - |r|..]
    ensures r != "" ==> r[0] != c
    ensures s != "" && s[0] != c ==> r == s
    ensures s != "" && s[0] == c ==> |r| < |s|
  {
    if s != "" && s[0] == c then StripLeading(s[1..], c) else s
  }

  lemma StripOne(c: char, s: string)
    ensures StripLeading([c] + s, c) == StripLeading(s, c)
  {
  }

  /** `s.rstrip(c)` */
  function StripTrailing(s: string, c: char): (r: string)
    ensures r <= s
    ensures r != "" ==> r[|r| - 1] != c
    ensures s != "" && s[|s| - 1] != c ==> r == s
  {
    if s != "" && s[|s| - 1] == c then StripTrailing(s[..|s| - 1], c) else s
  }

  /** `s.split(c)[-1]` */
  function LastSegment(s: string, c: char): (r: string)
    ensures c !in r
    decreases |s|
  {
    var i := IndexOf(s, c);
    if i == |s| then s else LastSegment(s[i + 1..], c)
  }

  lemma LastOfTwo(a: string, c: char, b: string)
    requires c !in a && c !in b
    ensures LastSegment(a + [c] + b, c) == b
  {
  }

  /** Python's `s.replace(what, by)`: leftmost occurrences, none overlapping. */
  function Replace(s: string, what: string, insert: string): string
    requires what != ""
    decreases |s|
  {
    if s == "" then ""
    else if what <= s then insert + Replace(s[|what|..], what, insert)
    else [s[0]] + Replace(s[1..], what, insert)
  }

  /** The characters of `s` other than those in `drop`, in order. */
  function Without(s: string, drop: set<char>): (r: string)
    ensures |r| <= |s|
  {
    if s == "" then ""
    else if s[0] in drop then Without(s[1..], drop)
    else [s[0]] + Without(s[1..], drop)
  }

  lemma WithoutKeeps(s: string, drop: set<char>)
    ensures (forall c :: c in s ==> c !in drop) <==> Without(s, drop) == s
    ensures (exists c :: c in s && c in drop) ==> |Without(s, drop)| < |s|
  {
  }

  lemma {:induction false} WithoutIsSafe(s: string, drop: set<char>)
    ensures forall c :: c in Without(s, drop) <==> c in s && c !in drop
    ensures s != "" && s[|s| - 1] !in drop ==>
              Without(s, drop) != "" && Without(s, drop)[|Without(s, drop)| - 1] == s[|s| - 1]
    ensures s != "" && s[0] !in drop ==> Without(s, drop) != "" && Without(s, drop)[0] == s[0]
  {
    if s != "" {
      WithoutIsSafe(s[1..], drop);
      assert s == [s[0]] + s[1..];
      assert |s| > 1 ==> s[1..][|s[1..]| - 1] == s[|s| - 1];
    }
  }

  lemma WithoutAppend(a: string, b: string, drop: set<char>)
    ensures Without(a + b, drop) == Without(a, drop) + Without(b, drop)
  {
    if a == "" {
      assert a + b == b;
    } else {
      assert (a + b)[1..] == a[1..] + b;
      WithoutAppend(a[1..], b, drop);
    }
  }
}
