/** core/drive/client.go:99-120: the '/'-separated paths the engine is keyed by, and their components. */
module PathNames {
  type Name = string

  /** A name path.Join leaves alone. */
  predicate IsName(n: Name) {
    n != "" && n != "." && n != ".." && '/' !in n
  }

  predicate AreNames(c: seq<Name>) {
    forall i :: 0 <= i < |c| ==> IsName(c[i])
  }

  /** path.Join, as the recursive listing builds its keys. */
  function Join(c: seq<Name>): string {
    if |c| == 0 then "" else if |c| == 1 then c[0] else Join(c[..|c| - 1]) + "/" + c[|c| - 1]
  }

  function LastSlash(s: string): (i: int)
    ensures -1 <= i < |s| && (i >= 0 ==> s[i] == '/')
  {
    if s == "" then -1 else if s[|s| - 1] == '/' then |s| - 1 else LastSlash(s[..|s| - 1])
  }

  /** path.Base and path.Dir of a clean, relative, non-empty path. */
  function Base(s: string): string { s[LastSlash(s) + 1..] }

  function Dir(s: string): string {
    if LastSlash(s) < 0 then "." else if LastSlash(s) == 0 then "/" else s[..LastSlash(s)]
  }

  lemma {:induction false} SlashIsLast(s: string, i: int)
    requires -1 <= i < |s| && (i >= 0 ==> s[i] == '/')
    requires forall j :: i < j < |s| ==> s[j] != '/'
    ensures LastSlash(s) == i
  {
    if s != "" && i < |s| - 1 { SlashIsLast(s[..|s| - 1], i); }
  }

  lemma SlashBefore(a: string, n: string, s: string)
    requires '/' !in n && a != "" && s == a + "/" + n
    ensures Base(s) == n && Dir(s) == a
  {
    SlashIsLast(s, |a|);
  }

  /** A joined path is never one of the three strings that end the engine's loops. */
  lemma {:induction false} JoinIsProper(c: seq<Name>)
    requires AreNames(c) && c != []
    ensures Join(c) != "" && Join(c) != "." && Join(c)[0] != '/'
    decreases |c|
  {
    if |c| > 1 {
      var up := c[..|c| - 1];
      JoinIsProper(up);
      assert |Join(c)| > 1 && Join(c)[0] == Join(up)[0];
    } else {
      assert IsName(c[0]) && c[0][0] in c[0];
    }
  }

  /** Base and Dir take off the last component. */
  lemma {:induction false} JoinSplits(c: seq<Name>)
    requires AreNames(c) && c != []
    ensures Base(Join(c)) == c[|c| - 1]
    ensures Dir(Join(c)) == if |c| == 1 then "." else Join(c[..|c| - 1])
  {
    if |c| == 1 {
      SlashIsLast(c[0], -1);
    } else {
      var up := c[..|c| - 1];
      JoinIsProper(up);
      SlashBefore(Join(up), c[|c| - 1], Join(c));
    }
  }

  /** Two different lists of names never share a key. */
  lemma {:induction false} JoinInjective(c: seq<Name>, d: seq<Name>)
    requires AreNames(c) && AreNames(d) && Join(c) == Join(d)
    ensures c == d
    decreases |c|
  {
    if c != [] { JoinIsProper(c); }
    if d != [] { JoinIsProper(d); }
    if c != [] && d != [] {
      JoinSplits(c);
      JoinSplits(d);
      if |c| > 1 { JoinIsProper(c[..|c| - 1]); }
      if |d| > 1 { JoinIsProper(d[..|d| - 1]); }
      if |c| > 1 && |d| > 1 { JoinInjective(c[..|c| - 1], d[..|d| - 1]); }
      SameEnds(c, d);
    }
  }

  lemma SameEnds(c: seq<Name>, d: seq<Name>)
    requires c != [] && d != [] && c[..|c| - 1] == d[..|d| - 1] && c[|c| - 1] == d[|d| - 1]
    ensures c == d
  {
    assert c == c[..|c| - 1] + [c[|c| - 1]] && d == d[..|d| - 1] + [d[|d| - 1]];
  }

  lemma OneUp(c: seq<Name>, k: nat)
    requires AreNames(c) && 0 < k <= |c|
    ensures [Base(Join(c[..k]))] + c[k..] == c[k - 1..]
    ensures Dir(Join(c[..k])) == if k == 1 then "." else Join(c[..k - 1])
  {
    JoinSplits(c[..k]);
    assert c[..k][..k - 1] == c[..k - 1];
  }

  /** EnsurePath's first loop: it recovers the components of the directory, deepest first. */
  method Components(relDir: string, ghost c: seq<Name>) returns (parts: seq<Name>)
    requires AreNames(c) && (relDir == Join(c) || (c == [] && relDir == "."))
    ensures parts == c
  {
    assert c[..|c|] == c;
    parts := [];
    var dir := relDir;
    ghost var k := |c|;
    if c != [] { JoinIsProper(c); }
    while dir != "" && dir != "." && dir != "/"
      invariant 0 <= k <= |c| && parts == c[k..]
      invariant dir == Join(c[..k]) || (k == 0 && dir == ".")
      invariant k > 0 ==> dir != "" && dir != "." && dir != "/"
      decreases k
    {
      OneUp(c, k);
      parts, dir, k := [Base(dir)] + parts, Dir(dir), k - 1;
      if k > 0 { JoinIsProper(c[..k]); }
    }
  }
}
