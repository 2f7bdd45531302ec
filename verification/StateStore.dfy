/** core/db/db.go: the tracking table and the folder targets, as maps with upsert semantics. */
module StateStore {
  import opened SyncTypes

  // ---- FileID ----

  /** %d */
  function Decimal(n: int): string
    decreases if n < 0 then 1 else 0, if n < 0 then -n else n
  {
    if n < 0 then "-" + Decimal(-n)
    else if n < 10 then [Digit(n)]
    else Decimal(n / 10) + [Digit(n % 10)]
  }

  function Digit(d: int): char
    requires 0 <= d < 10
  {
    '0' + d as char
  }

  /** The text whose SHA-256 is the row's primary key. */
  function FileID(rel: RelId, path: Path): string { Decimal(rel) + ":" + path }

  lemma {:induction false} DecimalShape(n: int)
    ensures |Decimal(n)| > 0
    ensures forall i :: 0 <= i < |Decimal(n)| ==> Decimal(n)[i] != ':'
    ensures n >= 0 ==> forall i :: 0 <= i < |Decimal(n)| ==> Decimal(n)[i] != '-'
    decreases if n < 0 then 1 else 0, if n < 0 then -n else n
  {
    if n < 0 { DecimalShape(-n); } else if n >= 10 { DecimalShape(n / 10); }
  }

  lemma {:induction false} DecimalInjective(m: int, n: int)
    requires Decimal(m) == Decimal(n)
    ensures m == n
    decreases if m < 0 then 1 else 0, if m < 0 then -m else m
  {
    DecimalShape(m);
    DecimalShape(n);
    if m < 0 || n < 0 {
      assert (m < 0) == (Decimal(m)[0] == '-') && (n < 0) == (Decimal(n)[0] == '-');
      assert Decimal(m)[1..] == Decimal(-m) && Decimal(n)[1..] == Decimal(-n);
      DecimalInjective(-m, -n);
    } else {
      LastDigit(m);
      LastDigit(n);
      if m >= 10 && n >= 10 {
        assert Decimal(m)[..|Decimal(m)| - 1] == Decimal(n)[..|Decimal(n)| - 1];
        DecimalInjective(m / 10, n / 10);
      }
    }
  }

  lemma LastDigit(n: nat)
    ensures Decimal(n) == (if n < 10 then [] else Decimal(n / 10)) + [Digit(n % 10)]
    ensures n >= 10 ==> |Decimal(n)| >= 2 && Decimal(n)[..|Decimal(n)| - 1] == Decimal(n / 10)
    ensures n < 10 ==> |Decimal(n)| == 1
    ensures Decimal(n)[|Decimal(n)| - 1] == Digit(n % 10)
  {
    if n >= 10 { DecimalShape(n / 10); }
  }

  /** "relation:path" encodes injectively, although paths may contain colons: state never
      bleeds between relations. */
  lemma FileIDInjective(r: RelId, p: Path, s: RelId, q: Path)
    requires FileID(r, p) == FileID(s, q)
    ensures r == s && p == q
  {
    DecimalShape(r);
    DecimalShape(s);
    var a, b := Decimal(r), Decimal(s);
    assert FileID(r, p)[|a|] == ':' && FileID(s, q)[|b|] == ':';
    assert forall i :: 0 <= i < |a| ==> FileID(r, p)[i] == a[i];
    assert forall i :: 0 <= i < |b| ==> FileID(s, q)[i] == b[i];
    assert |a| == |b|;
    assert FileID(r, p)[..|a|] == a && FileID(s, q)[..|b|] == b;
    assert FileID(r, p)[|a| + 1..] == p && FileID(s, q)[|b| + 1..] == q;
    DecimalInjective(r, s);
  }

  // ---- the store ----

  /** A row of folder_targets joined with its mirrored folder. */
  datatype TargetInfo = TargetInfo(target: FolderTarget, holdDays: int)

  class Store {
    var rows: Rows
    var targets: seq<TargetInfo>

    constructor ()
      ensures rows == map[] && targets == []
    {
      rows, targets := map[], [];
    }

    method UpsertFile(k: Key, m: FileMeta)
      modifies this`rows
      ensures rows == old(rows)[k := m]
    {
      rows := rows[k := m];
    }

    method GetFile(k: Key) returns (m: Option<FileMeta>)
      ensures m == if k in rows then Some(rows[k]) else None
    {
      m := if k in rows then Some(rows[k]) else None;
    }

    /** UPDATE ... WHERE id: nothing happens when the row is not there. */
    method MarkTrashed(k: Key, when: Time)
      modifies this`rows
      ensures k in old(rows) ==> rows == old(rows)[k := old(rows)[k].(status := Trashed, deletedAt := Some(when))]
      ensures k !in old(rows) ==> rows == old(rows)
    {
      if k in rows {
        rows := rows[k := rows[k].(status := Trashed, deletedAt := Some(when))];
      }
    }

    method DeleteFileRow(k: Key)
      modifies this`rows
      ensures rows == old(rows) - {k}
    {
      rows := rows - {k};
    }

    /** The live and TRASHED rows of one relation. */
    method FilesForRelation(rel: RelId) returns (out: Rows)
      ensures forall k :: k in out <==> k in rows && k.rel == rel
      ensures forall k :: k in out ==> out[k] == rows[k]
    {
      out := map[];
      var todo := rows.Keys;
      while todo != {}
        invariant todo <= rows.Keys
        invariant forall k :: k in out <==> k in rows && k !in todo && k.rel == rel
        invariant forall k :: k in out ==> out[k] == rows[k]
        decreases todo
      {
        var k :| k in todo;
        if k.rel == rel { out := out[k := rows[k]]; }
        todo := todo - {k};
      }
    }

    method ListTrashed() returns (out: set<Key>)
      ensures forall k :: k in out <==> k in rows && rows[k].status == Trashed
    {
      out := set k | k in rows && rows[k].status == Trashed;
    }

    /** ORDER BY id is the order of insertion, since ids autoincrement. */
    method OverflowsOf(primary: RelId) returns (out: seq<FolderTarget>)
      ensures out == Overflows(targets, primary)
    {
      out := [];
      var i := |targets|;
      while i > 0
        invariant 0 <= i <= |targets|
        invariant out == Overflows(targets[i..], primary)
      {
        i := i - 1;
        assert targets[i..][0] == targets[i] && targets[i..][1..] == targets[i + 1..];
        if targets[i].target.overflowOf == primary { out := [targets[i].target] + out; }
      }
      assert targets[0..] == targets;
    }

    method AddFolderTarget(t: FolderTarget, holdDays: int) returns (id: RelId)
      modifies this`targets
      ensures id == NextId(old(targets))
      ensures targets == old(targets) + [TargetInfo(t.(id := id), holdDays)]
    {
      id := NextId(targets);
      targets := targets + [TargetInfo(t.(id := id), holdDays)];
    }
  }

  function Overflows(targets: seq<TargetInfo>, primary: RelId): seq<FolderTarget> {
    if targets == [] then []
    else (if targets[0].target.overflowOf == primary then [targets[0].target] else [])
           + Overflows(targets[1..], primary)
  }

  /** at are the places of the targets that spill over from primary, in their order. */
  ghost predicate PlacesOf(targets: seq<TargetInfo>, primary: RelId, at: seq<nat>) {
    && (forall n :: 0 <= n < |at| ==> at[n] < |targets| && targets[at[n]].target.overflowOf == primary)
    && (forall m, n :: 0 <= m < n < |at| ==> at[m] < at[n])
    && (forall i :: 0 <= i < |targets| && targets[i].target.overflowOf == primary ==> i in at)
  }

  /** The spillover relations are exactly the targets at these places. */
  lemma {:induction false} OverflowsAre(targets: seq<TargetInfo>, primary: RelId) returns (at: seq<nat>)
    ensures PlacesOf(targets, primary, at) && |at| == |Overflows(targets, primary)|
    ensures forall n :: 0 <= n < |at| ==> Overflows(targets, primary)[n] == targets[at[n]].target
    decreases |targets|
  {
    at := [];
    if targets != [] {
      var last := |targets| - 1;
      at := OverflowsAre(targets[..last], primary);
      OverflowsSnoc(targets[..last], targets[last], primary);
      assert targets == targets[..last] + [targets[last]];
      if targets[last].target.overflowOf == primary { at := at + [last]; }
      forall i | 0 <= i < |targets| && targets[i].target.overflowOf == primary ensures i in at {
        if i < last { assert targets[..last][i] == targets[i]; }
      }
    }
  }

  lemma {:induction false} OverflowsSnoc(targets: seq<TargetInfo>, t: TargetInfo, primary: RelId)
    ensures Overflows(targets + [t], primary) == Overflows(targets, primary) + if t.target.overflowOf == primary then [t.target] else []
    decreases |targets|
  {
    if targets == [] {
      assert [t][1..] == [];
    } else {
      assert (targets + [t])[1..] == targets[1..] + [t];
      OverflowsSnoc(targets[1..], t, primary);
    }
  }

  /** AUTOINCREMENT: larger than every id so far, and never 0. */
  function NextId(targets: seq<TargetInfo>): (id: RelId)
    ensures id >= 1
    ensures forall i :: 0 <= i < |targets| ==> targets[i].target.id < id
  {
    if targets == [] then 1
    else
      var rest := NextId(targets[..|targets| - 1]);
      var last := targets[|targets| - 1].target.id;
      if last >= rest then last + 1 else rest
  }
}
