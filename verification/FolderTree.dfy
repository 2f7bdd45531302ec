/** core/drive/client.go: Drive's folder tree under the flat, path-keyed listing. */
module FolderTree {

  type NodeId = string
  type Name = string
  type RelPath = seq<Name>  // the components of a clean relative path

  const TRASH_FOLDER_NAME: Name := ".crosssync_trash"

  /** A file or folder; every node has one parent. */
  datatype Node = Node(name: Name, parent: NodeId, folder: bool)

  type Tree = map<NodeId, Node>

  /** rank witnesses that the parent relation has no cycles. */
  ghost predicate Acyclic(t: Tree, rank: map<NodeId, nat>, bound: nat) {
    forall id :: id in t ==> id in rank && t[id].parent in rank && rank[t[id].parent] < rank[id] <= bound
  }

  // ---- what is where ----

  /** Going down rel from folder root, through folders and past no holding tank, one gets to id. */
  predicate Leads(t: Tree, root: NodeId, rel: RelPath, id: NodeId)
    decreases |rel|
  {
    && rel != [] && id in t
    && t[id].name == rel[|rel| - 1] && t[id].name != TRASH_FOLDER_NAME
    && if |rel| == 1 then t[id].parent == root
       else t[id].parent in t && t[t[id].parent].folder && Leads(t, root, rel[..|rel| - 1], t[id].parent)
  }

  /** The files ListFolderRecursive shows, and the path it shows them under. */
  predicate Shown(t: Tree, root: NodeId, rel: RelPath, id: NodeId) {
    Leads(t, root, rel, id) && !t[id].folder
  }

  lemma {:induction false} LeadsRanks(t: Tree, root: NodeId, rel: RelPath, id: NodeId, rank: map<NodeId, nat>, bound: nat)
    requires Acyclic(t, rank, bound) && Leads(t, root, rel, id)
    ensures root in rank && rank[id] >= rank[root] + |rel|
    decreases |rel|
  {
    if |rel| > 1 { LeadsRanks(t, root, rel[..|rel| - 1], t[id].parent, rank, bound); }
  }

  /** A node is shown under one path only. */
  lemma {:induction false} LeadsOnce(t: Tree, root: NodeId, p: RelPath, q: RelPath, id: NodeId, rank: map<NodeId, nat>, bound: nat)
    requires Acyclic(t, rank, bound) && Leads(t, root, p, id) && Leads(t, root, q, id)
    ensures p == q
    decreases |p|
  {
    assert p == p[..|p| - 1] + [p[|p| - 1]] && q == q[..|q| - 1] + [q[|q| - 1]];
    if |p| > 1 { LeadsRanks(t, root, p[..|p| - 1], t[id].parent, rank, bound); }
    if |q| > 1 { LeadsRanks(t, root, q[..|q| - 1], t[id].parent, rank, bound); }
    if |p| > 1 && |q| > 1 {
      LeadsOnce(t, root, p[..|p| - 1], q[..|q| - 1], t[id].parent, rank, bound);
    }
  }

  /** The same relation seen from the top, as the recursive walk sees it. */
  lemma {:induction false} LeadsDown(t: Tree, root: NodeId, c: NodeId, rest: RelPath, id: NodeId)
    requires c in t && t[c].parent == root && t[c].folder && t[c].name != TRASH_FOLDER_NAME
    requires Leads(t, c, rest, id)
    ensures Leads(t, root, [t[c].name] + rest, id)
    decreases |rest|
  {
    var p := [t[c].name] + rest;
    if |rest| == 1 {
      assert p[..|p| - 1] == [t[c].name];
    } else {
      assert p[..|p| - 1] == [t[c].name] + rest[..|rest| - 1];
      LeadsDown(t, root, c, rest[..|rest| - 1], t[id].parent);
    }
  }

  lemma {:induction false} LeadsTop(t: Tree, root: NodeId, p: RelPath, id: NodeId) returns (c: NodeId)
    requires Leads(t, root, p, id) && |p| > 1
    ensures c in t && t[c].parent == root && t[c].folder && t[c].name != TRASH_FOLDER_NAME && t[c].name == p[0]
    ensures Leads(t, c, p[1..], id)
    decreases |p|
  {
    var up := p[..|p| - 1];
    if |p| == 2 {
      c := t[id].parent;
    } else {
      c := LeadsTop(t, root, up, t[id].parent);
      assert p[1..][..|p[1..]| - 1] == up[1..];
    }
  }

  lemma {:induction false} SameStart(t: Tree, a: NodeId, b: NodeId, rel: RelPath, id: NodeId)
    requires Leads(t, a, rel, id) && Leads(t, b, rel, id)
    ensures a == b
    decreases |rel|
  {
    if |rel| > 1 { SameStart(t, a, b, rel[..|rel| - 1], t[id].parent); }
  }

  // ---- ListFolderRecursive ----

  type Flat = map<RelPath, seq<NodeId>>

  function Objects(out: Flat, p: RelPath): seq<NodeId> { if p in out then out[p] else [] }

  /** id is shown below folder under prefix + its path from there. */
  ghost predicate Below(t: Tree, folder: NodeId, prefix: RelPath, p: RelPath, id: NodeId) {
    |prefix| < |p| && p[..|prefix|] == prefix && Shown(t, folder, p[|prefix|..], id)
  }

  /** Below, but only through the children in some. */
  ghost predicate BelowSome(t: Tree, some: set<NodeId>, folder: NodeId, prefix: RelPath, p: RelPath, id: NodeId) {
    exists c :: c in some && BelowChild(t, folder, c, prefix, p, id)
  }

  ghost predicate BelowChild(t: Tree, folder: NodeId, c: NodeId, prefix: RelPath, p: RelPath, id: NodeId) {
    && c in t && t[c].parent == folder && t[c].name != TRASH_FOLDER_NAME
    && if t[c].folder then Below(t, c, prefix + [t[c].name], p, id)
       else id == c && p == prefix + [t[c].name]
  }

  lemma BelowIsBelowSome(t: Tree, all: set<NodeId>, folder: NodeId, prefix: RelPath, p: RelPath, id: NodeId)
    requires forall c :: c in all <==> c in t && t[c].parent == folder
    ensures Below(t, folder, prefix, p, id) <==> BelowSome(t, all, folder, prefix, p, id)
  {
    if Below(t, folder, prefix, p, id) {
      var rel := p[|prefix|..];
      assert p == prefix + rel;
      if |rel| == 1 {
        assert BelowChild(t, folder, id, prefix, p, id);
      } else {
        var c := LeadsTop(t, folder, rel, id);
        assert p[..|prefix| + 1] == prefix + [rel[0]] && p[|prefix| + 1..] == rel[1..];
        assert BelowChild(t, folder, c, prefix, p, id);
      }
    }
    if BelowSome(t, all, folder, prefix, p, id) {
      var c :| c in all && BelowChild(t, folder, c, prefix, p, id);
      if t[c].folder {
        var rest := p[|prefix| + 1..];
        LeadsDown(t, folder, c, rest, id);
        assert p[|prefix|..] == [t[c].name] + rest;
        assert p[..|prefix|] == (prefix + [t[c].name])[..|prefix|];
      } else {
        assert p[|prefix|..] == [t[c].name] && p[..|prefix|] == prefix;
      }
    }
  }

  /** A node is below one child only. */
  lemma BelowOneChild(t: Tree, folder: NodeId, c: NodeId, d: NodeId, prefix: RelPath, p: RelPath, id: NodeId)
    requires BelowChild(t, folder, c, prefix, p, id) && BelowChild(t, folder, d, prefix, p, id)
    ensures c == d
  {
    if t[c].folder && t[d].folder {
      assert p[|prefix + [t[c].name]|..] == p[|prefix + [t[d].name]|..];
      SameStart(t, c, d, p[|prefix| + 1..], id);
    }
  }

  /** No object is listed twice. */
  ghost predicate ListedOnce(out: Flat) {
    forall p, i, j {:trigger Objects(out, p)[i], Objects(out, p)[j]} ::
      0 <= i < j < |Objects(out, p)| ==> Objects(out, p)[i] != Objects(out, p)[j]
  }

  /** The walk: after it, out lists in addition exactly what is below folder. */
  method Walk(t: Tree, folder: NodeId, prefix: RelPath, out0: Flat, ghost rank: map<NodeId, nat>, ghost bound: nat)
    returns (out: Flat)
    requires Acyclic(t, rank, bound) && folder in rank
    requires ListedOnce(out0) && forall p, id :: Below(t, folder, prefix, p, id) ==> id !in Objects(out0, p)
    ensures forall p, id :: id in Objects(out, p) <==> id in Objects(out0, p) || Below(t, folder, prefix, p, id)
    ensures ListedOnce(out)
    decreases bound - rank[folder], 1
  {
    var all := set c | c in t && t[c].parent == folder;
    var todo := all;
    out := out0;
    forall p, id ensures BelowSome(t, all, folder, prefix, p, id) <==> Below(t, folder, prefix, p, id) {
      BelowIsBelowSome(t, all, folder, prefix, p, id);
    }
    while todo != {}
      invariant todo <= all && ListedOnce(out)
      invariant forall p, id :: id in Objects(out, p) <==>
                  id in Objects(out0, p) || BelowSome(t, all - todo, folder, prefix, p, id)
      decreases todo
    {
      var c :| c in todo;
      ghost var out1, past := out, all - todo;
      forall p, id | BelowChild(t, folder, c, prefix, p, id) ensures id !in Objects(out, p) {
        assert BelowSome(t, all, folder, prefix, p, id);
        if BelowSome(t, past, folder, prefix, p, id) {
          var d :| d in past && BelowChild(t, folder, d, prefix, p, id);
          BelowOneChild(t, folder, c, d, prefix, p, id);
        }
      }
      out := Visit(t, folder, c, prefix, out, rank, bound);
      todo := todo - {c};
      assert all - todo == past + {c};
      forall p, id ensures id in Objects(out, p) <==>
                  id in Objects(out0, p) || BelowSome(t, all - todo, folder, prefix, p, id) {
        assert id in Objects(out, p) <==> id in Objects(out1, p) || BelowChild(t, folder, c, prefix, p, id);
        assert BelowSome(t, all - todo, folder, prefix, p, id) <==>
               BelowSome(t, past, folder, prefix, p, id) || BelowChild(t, folder, c, prefix, p, id);
      }
    }
    assert all - todo == all;
  }

  method Visit(t: Tree, folder: NodeId, c: NodeId, prefix: RelPath, out0: Flat, ghost rank: map<NodeId, nat>, ghost bound: nat)
    returns (out: Flat)
    requires Acyclic(t, rank, bound) && folder in rank && c in t && t[c].parent == folder
    requires ListedOnce(out0) && forall p, id :: BelowChild(t, folder, c, prefix, p, id) ==> id !in Objects(out0, p)
    ensures ListedOnce(out)
    ensures forall p, id :: id in Objects(out, p) <==> id in Objects(out0, p) || BelowChild(t, folder, c, prefix, p, id)
    decreases bound - rank[folder], 0
  {
    var n := t[c];
    if n.name == TRASH_FOLDER_NAME { return out0; }
    var rel := prefix + [n.name];
    if n.folder {
      out := Walk(t, c, rel, out0, rank, bound);
    } else {
      assert BelowChild(t, folder, c, prefix, rel, c);
      out := out0[rel := Objects(out0, rel) + [c]];
      forall p ensures Objects(out, p) == if p == rel then Objects(out0, rel) + [c] else Objects(out0, p) {}
    }
  }

  method ListFolderRecursive(t: Tree, root: NodeId, ghost rank: map<NodeId, nat>, ghost bound: nat) returns (out: Flat)
    requires Acyclic(t, rank, bound) && root in rank
    ensures forall p, id :: id in Objects(out, p) <==> Shown(t, root, p, id)
    ensures ListedOnce(out)
  {
    out := Walk(t, root, [], map[], rank, bound);
    forall p, id ensures Below(t, root, [], p, id) <==> Shown(t, root, p, id) {
      assert p[0..] == p;
    }
  }
}
