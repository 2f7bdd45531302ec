/** core/drive/client.go: the operations that grow and rearrange Drive's folder tree, and what each does to the listing. */
module FolderOps {
  import opened SyncTypes
  import opened FolderTree

  /** Going down dir from folder root, through folders of any name, one gets to folder id. */
  predicate Reaches(t: Tree, root: NodeId, dir: RelPath, id: NodeId)
    decreases |dir|
  {
    if dir == [] then id == root
    else
      && id in t && t[id].folder && t[id].name == dir[|dir| - 1]
      && Reaches(t, root, dir[..|dir| - 1], t[id].parent)
  }

  /** t2 has t's nodes and some new folders, none of which anything in t hangs from. */
  ghost predicate Grown(t: Tree, t2: Tree) {
    && (forall id :: id in t ==> id in t2 && t2[id] == t[id])
    && (forall id :: id in t2 && id !in t ==> t2[id].folder)
    && (forall id :: id in t && t[id].parent !in t ==> t[id].parent !in t2)
  }

  /** Only folders have children. */
  ghost predicate FilesAreLeaves(t: Tree) {
    forall id :: id in t && t[id].parent in t ==> t[t[id].parent].folder
  }

  /** New folders change nothing about what leads to the nodes that were there. */
  lemma {:induction false} GrownLeads(t: Tree, t2: Tree, root: NodeId, rel: RelPath, id: NodeId)
    requires Grown(t, t2) && id in t
    ensures Leads(t2, root, rel, id) <==> Leads(t, root, rel, id)
    decreases |rel|
  {
    if |rel| > 1 && t[id].parent in t { GrownLeads(t, t2, root, rel[..|rel| - 1], t[id].parent); }
  }

  lemma GrownShows(t: Tree, t2: Tree, root: NodeId)
    requires Grown(t, t2)
    ensures forall p, id :: Shown(t2, root, p, id) <==> Shown(t, root, p, id)
  {
    forall p, id ensures Shown(t2, root, p, id) <==> Shown(t, root, p, id) {
      if id in t { GrownLeads(t, t2, root, p, id); }
    }
  }

  lemma {:induction false} GrownReaches(t: Tree, t2: Tree, root: NodeId, dir: RelPath, id: NodeId)
    requires Grown(t, t2) && Reaches(t, root, dir, id)
    ensures Reaches(t2, root, dir, id)
    decreases |dir|
  {
    if dir != [] { GrownReaches(t, t2, root, dir[..|dir| - 1], t[id].parent); }
  }

  /** A node hung under the folder that dir reaches is shown under dir and its own name, unless a component is the tank's. */
  lemma {:induction false} ReachesLeads(t: Tree, root: NodeId, dir: RelPath, id: NodeId)
    requires id in t && Reaches(t, root, dir, t[id].parent)
    ensures Leads(t, root, dir + [t[id].name], id) <==> TRASH_FOLDER_NAME !in dir + [t[id].name]
    decreases |dir|
  {
    var p := dir + [t[id].name];
    assert p[..|p| - 1] == dir;
    if dir != [] {
      assert dir == dir[..|dir| - 1] + [dir[|dir| - 1]];
      ReachesLeads(t, root, dir[..|dir| - 1], t[id].parent);
      assert TRASH_FOLDER_NAME in p <==> TRASH_FOLDER_NAME in dir || t[id].name == TRASH_FOLDER_NAME;
    }
  }

  /** The converse: what leads to a node goes through the folder it hangs from. */
  lemma {:induction false} LeadsReaches(t: Tree, root: NodeId, rel: RelPath, id: NodeId)
    requires Leads(t, root, rel, id)
    ensures Reaches(t, root, rel[..|rel| - 1], t[id].parent) && TRASH_FOLDER_NAME !in rel
    decreases |rel|
  {
    assert rel == rel[..|rel| - 1] + [rel[|rel| - 1]];
    if |rel| > 1 { LeadsReaches(t, root, rel[..|rel| - 1], t[id].parent); }
  }

  lemma {:induction false} ReachesOnce(t: Tree, root: NodeId, p: RelPath, q: RelPath, id: NodeId,
                                       rank: map<NodeId, nat>, bound: nat)
    requires Acyclic(t, rank, bound) && Reaches(t, root, p, id) && Reaches(t, root, q, id)
    ensures p == q
    decreases |p|
  {
    if p != [] && q != [] {
      assert p == p[..|p| - 1] + [p[|p| - 1]] && q == q[..|q| - 1] + [q[|q| - 1]];
      ReachesOnce(t, root, p[..|p| - 1], q[..|q| - 1], t[id].parent, rank, bound);
    } else if p != [] {
      ReachesRanks(t, root, p, id, rank, bound);
    } else if q != [] {
      ReachesRanks(t, root, q, id, rank, bound);
    }
  }

  lemma {:induction false} ReachesRanks(t: Tree, root: NodeId, dir: RelPath, id: NodeId, rank: map<NodeId, nat>, bound: nat)
    requires Acyclic(t, rank, bound) && Reaches(t, root, dir, id) && dir != []
    ensures root in rank && rank[id] > rank[root]
    decreases |dir|
  {
    if |dir| > 1 { ReachesRanks(t, root, dir[..|dir| - 1], t[id].parent, rank, bound); }
  }

  /** The one place where a node that hangs from the folder dir reaches is shown. */
  lemma ShownHere(t: Tree, root: NodeId, dir: RelPath, id: NodeId, rank: map<NodeId, nat>, bound: nat)
    requires Acyclic(t, rank, bound) && id in t && !t[id].folder && Reaches(t, root, dir, t[id].parent)
    ensures forall p :: Shown(t, root, p, id) <==> p == dir + [t[id].name] && TRASH_FOLDER_NAME !in p
  {
    forall p ensures Shown(t, root, p, id) <==> p == dir + [t[id].name] && TRASH_FOLDER_NAME !in p {
      ReachesLeads(t, root, dir, id);
      if Shown(t, root, p, id) {
        LeadsReaches(t, root, p, id);
        ReachesOnce(t, root, p[..|p| - 1], dir, t[id].parent, rank, bound);
        assert p == p[..|p| - 1] + [p[|p| - 1]];
      }
    }
  }

  /** What hangs from one root hangs from no other. */
  lemma {:induction false} OneRoot(t: Tree, a: NodeId, b: NodeId, p: RelPath, q: RelPath, id: NodeId)
    requires a !in t && b !in t && Reaches(t, a, p, id) && Reaches(t, b, q, id)
    ensures a == b
    decreases |p|
  {
    if p != [] { OneRoot(t, a, b, p[..|p| - 1], q[..|q| - 1], t[id].parent); }
  }

  lemma ShownNowhereElse(t: Tree, roots: set<NodeId>, root: NodeId, dir: RelPath, id: NodeId)
    requires roots !! t.Keys && root in roots && id in t && Reaches(t, root, dir, t[id].parent)
    ensures forall other, p :: other in roots && other != root ==> !Shown(t, other, p, id)
  {
    forall other, p | other in roots && other != root ensures !Shown(t, other, p, id) {
      if Shown(t, other, p, id) {
        LeadsReaches(t, other, p, id);
        OneRoot(t, root, other, dir, p[..|p| - 1], t[id].parent);
      }
    }
  }

  /** Adding a leaf, or hanging one elsewhere, changes nothing about the other nodes. */
  lemma {:induction false} LeafLeads(t: Tree, t2: Tree, leaf: NodeId, root: NodeId, rel: RelPath, id: NodeId)
    requires forall x :: x != leaf ==> (x in t2 <==> x in t) && (x in t ==> t2[x] == t[x])
    requires forall x :: x in t && x != leaf ==> t[x].parent != leaf
    requires id != leaf
    ensures Leads(t2, root, rel, id) <==> Leads(t, root, rel, id)
    decreases |rel|
  {
    if |rel| > 1 && id in t && t[id].parent in t { LeafLeads(t, t2, leaf, root, rel[..|rel| - 1], t[id].parent); }
  }

  lemma {:induction false} LeafReaches(t: Tree, t2: Tree, leaf: NodeId, root: NodeId, dir: RelPath, id: NodeId)
    requires forall x :: x != leaf ==> (x in t2 <==> x in t) && (x in t ==> t2[x] == t[x])
    requires forall x :: x in t && x != leaf ==> t[x].parent != leaf
    requires id != leaf && Reaches(t, root, dir, id)
    ensures Reaches(t2, root, dir, id)
    decreases |dir|
  {
    if dir != [] { LeafReaches(t, t2, leaf, root, dir[..|dir| - 1], t[id].parent); }
  }

  lemma LeafShows(t: Tree, t2: Tree, leaf: NodeId, root: NodeId)
    requires forall x :: x != leaf ==> (x in t2 <==> x in t) && (x in t ==> t2[x] == t[x])
    requires forall x :: x in t && x != leaf ==> t[x].parent != leaf
    ensures forall p, id :: id != leaf ==> (Shown(t2, root, p, id) <==> Shown(t, root, p, id))
  {
    forall p, id | id != leaf ensures Shown(t2, root, p, id) <==> Shown(t, root, p, id) {
      LeafLeads(t, t2, leaf, root, p, id);
    }
  }

  /** Below every other root, everything but id is shown as before, and id is not shown. */
  ghost predicate ElsewhereAsBefore(t: Tree, t2: Tree, roots: set<NodeId>, root: NodeId, id: NodeId) {
    forall other, p, x :: other in roots && other != root ==>
      (Shown(t2, other, p, x) <==> x != id && Shown(t, other, p, x))
  }

  /** Folders are added, and then a leaf is hung somewhere: the other nodes are shown as before. */
  lemma HungAsLeaf(t: Tree, grown: Tree, t2: Tree, leaf: NodeId)
    requires Grown(t, grown)
    requires forall x :: x != leaf ==> (x in t2 <==> x in grown) && (x in grown ==> t2[x] == grown[x])
    requires forall x :: x in grown && x != leaf ==> grown[x].parent != leaf
    ensures forall root, p, x :: x != leaf ==> (Shown(t2, root, p, x) <==> Shown(t, root, p, x))
  {
    forall root, p, x | x != leaf ensures Shown(t2, root, p, x) <==> Shown(t, root, p, x) {
      GrownShows(t, grown, root);
      LeafShows(grown, t2, leaf, root);
    }
  }

  lemma NoChildren(t: Tree, rank: map<NodeId, nat>, bound: nat, id: NodeId)
    requires Acyclic(t, rank, bound) && (id !in rank || (FilesAreLeaves(t) && id in t && !t[id].folder))
    ensures forall x :: x in t ==> t[x].parent != id
  {}

  class Client {
    var nodes: Tree
    var roots: set<NodeId>  // folders that hang from nothing: My Drive and what is shared in
    var used: set<NodeId>  // every id Drive ever issued; it issues none twice
    ghost var rank: map<NodeId, nat>
    ghost var bound: nat

    constructor (root: NodeId)
      ensures Valid() && nodes == map[] && roots == {root}
    {
      nodes, roots, used, rank, bound := map[], {root}, {root}, map[root := 0], 0;
    }

    ghost predicate Valid()
      reads this
    {
      && Acyclic(nodes, rank, bound) && FilesAreLeaves(nodes)
      && nodes.Keys <= used && roots <= used && used == rank.Keys && nodes.Keys !! roots
    }

    /** A folder one can put things in. */
    predicate Folder(id: NodeId)
      reads this
    {
      id in roots || (id in nodes && nodes[id].folder)
    }

    /** Files.Create: a new node under an existing folder. */
    method Create(name: Name, parent: NodeId, folder: bool) returns (id: NodeId)
      requires Valid() && Folder(parent)
      modifies this
      ensures Valid() && roots == old(roots) && id !in old(used) && used == old(used) + {id}
      ensures nodes == old(nodes)[id := Node(name, parent, folder)]
      ensures forall x :: x in old(nodes) ==> old(nodes)[x].parent != id
    {
      id := NewId(used, "n");
      NoChildren(nodes, rank, bound, id);
      Place(id, Node(name, parent, folder));
      used := used + {id};
    }

    /** Hangs the leaf id under n.parent. */
    method Place(id: NodeId, n: Node)
      requires Valid() && Folder(n.parent) && n.parent != id && id !in roots
      requires forall x :: x in nodes ==> nodes[x].parent != id
      requires id in nodes ==> nodes[id].folder == n.folder
      modifies `nodes, `rank, `bound
      ensures nodes == old(nodes)[id := n]
      ensures Acyclic(nodes, rank, bound) && FilesAreLeaves(nodes) && rank.Keys == used + {id}
    {
      var r := rank[n.parent] + 1;
      nodes, rank, bound := nodes[id := n], rank[id := r], if r > bound then r else bound;
    }

    /** The folder of that name under parent: Drive's first match, or a new one. */
    method EnsureFolder(parent: NodeId, name: Name) returns (id: NodeId)
      requires Valid() && Folder(parent)
      modifies this
      ensures forall x :: x in nodes && x in old(used) ==> x in old(nodes)
      ensures Valid() && roots == old(roots) && old(used) <= used && Grown(old(nodes), nodes)
      ensures id in nodes && nodes[id] == Node(name, parent, true)
      ensures (exists f :: f in old(nodes) && old(nodes)[f] == Node(name, parent, true)) ==> nodes == old(nodes)
    {
      var matches := set f | f in nodes && nodes[f] == Node(name, parent, true);
      if matches != {} {
        id :| id in matches;
      } else {
        assert forall f :: f in nodes && nodes[f] == Node(name, parent, true) ==> f in matches;
        id := Create(name, parent, true);
      }
    }

    /** Walks and creates the chain of folders; it creates nothing that was there. */
    method EnsurePath(root: NodeId, dir: RelPath) returns (cur: NodeId)
      requires Valid() && root in roots
      modifies this
      ensures Valid() && roots == old(roots) && old(used) <= used && Grown(old(nodes), nodes) && Folder(cur)
      ensures Reaches(nodes, root, dir, cur)
      ensures forall x :: x in nodes && x in old(used) ==> x in old(nodes)
    {
      cur := root;
      for i := 0 to |dir|
        invariant Valid() && roots == old(roots) && Grown(old(nodes), nodes) && Folder(cur)
        invariant Reaches(nodes, root, dir[..i], cur)
        invariant old(used) <= used && forall x :: x in nodes && x in old(used) ==> x in old(nodes)
      {
        ghost var before, above := nodes, cur;
        cur := EnsureFolder(cur, dir[i]);
        GrownReaches(before, nodes, root, dir[..i], above);
        assert dir[..i + 1][..i] == dir[..i];
      }
      assert dir[..|dir|] == dir;
    }

    /** EnsurePath on the directory, then Upload's Files.Create: the listing gains exactly this object at exactly this path. */
    method CreateFile(root: NodeId, dir: RelPath, base: Name) returns (id: NodeId)
      requires Valid() && root in roots
      modifies this
      ensures Valid() && roots == old(roots) && old(used) <= used && id !in old(used)
      ensures forall p, x :: Shown(nodes, root, p, x) <==>
                Shown(old(nodes), root, p, x) || (x == id && p == dir + [base] && TRASH_FOLDER_NAME !in p)
      ensures ElsewhereAsBefore(old(nodes), nodes, roots, root, id)
      ensures id in nodes && nodes[id].name == base && !nodes[id].folder && Reaches(nodes, root, dir, nodes[id].parent)
      ensures forall x :: x in old(nodes) ==> x in nodes && nodes[x] == old(nodes)[x]
    {
      var parent := EnsurePath(root, dir);
      ghost var before := nodes;
      id := Create(base, parent, false);
      HungAsLeaf(old(nodes), before, nodes, id);
      LeafReaches(before, nodes, id, root, dir, parent);
      ShownHere(nodes, root, dir, id, rank, bound);
      ShownNowhereElse(nodes, roots, root, dir, id);
    }

    /** Reparenting a file; false when Drive no longer has it. */
    method MoveToFolder(id: NodeId, parent: NodeId) returns (ok: bool)
      requires Valid() && Folder(parent) && id in used && id !in roots && (id in nodes ==> !nodes[id].folder)
      modifies this
      ensures Valid() && roots == old(roots) && old(used) <= used && ok == (id in old(nodes))
      ensures nodes == if ok then old(nodes)[id := old(nodes)[id].(parent := parent)] else old(nodes)
    {
      ok := id in nodes;
      if ok {
        NoChildren(nodes, rank, bound, id);
        Place(id, nodes[id].(parent := parent));
      }
    }

    /** Reparenting into the folder dir reaches: the object leaves its path and shows under dir, or nowhere if a component is the tank's. */
    method MoveUnder(root: NodeId, dir: RelPath, id: NodeId) returns (ok: bool)
      requires Valid() && root in roots && id in used && id !in roots && (id in nodes ==> !nodes[id].folder)
      modifies this
      ensures Valid() && roots == old(roots) && old(used) <= used && ok == (id in old(nodes))
      ensures ok ==> id in nodes && nodes[id].name == old(nodes)[id].name && !nodes[id].folder
      ensures forall p, x :: x != id ==> (Shown(nodes, root, p, x) <==> Shown(old(nodes), root, p, x))
      ensures ok ==> forall p :: Shown(nodes, root, p, id) <==> p == dir + [nodes[id].name] && TRASH_FOLDER_NAME !in p
      ensures ok ==> ElsewhereAsBefore(old(nodes), nodes, roots, root, id) && Reaches(nodes, root, dir, nodes[id].parent)
    {
      var parent := EnsurePath(root, dir);
      GrownShows(old(nodes), nodes, root);
      ghost var before := nodes;
      ok := MoveToFolder(id, parent);
      if ok {
        HungAsLeaf(old(nodes), before, nodes, id);
        LeafReaches(before, nodes, id, root, dir, parent);
        ShownHere(nodes, root, dir, id, rank, bound);
        ShownNowhereElse(nodes, roots, root, dir, id);
      }
    }

    /** The trash task's two calls: exactly this object leaves the listing. */
    method MoveToTank(root: NodeId, id: NodeId) returns (ok: bool)
      requires Valid() && root in roots && id in used && id !in roots && (id in nodes ==> !nodes[id].folder)
      modifies this
      ensures Valid() && roots == old(roots) && old(used) <= used && ok == (id in old(nodes))
      ensures ok ==> id in nodes && nodes[id].name == old(nodes)[id].name && !nodes[id].folder
      ensures ok ==> forall p, x :: Shown(nodes, root, p, x) <==> Shown(old(nodes), root, p, x) && x != id
      ensures ok ==> ElsewhereAsBefore(old(nodes), nodes, roots, root, id)
      // It hangs in the folder of that name at the top of the container.
      ensures ok ==> nodes[id].parent in nodes && nodes[nodes[id].parent] == Node(".crosssync_trash", root, true)
    {
      ok := MoveUnder(root, [TRASH_FOLDER_NAME], id);
    }

    /** Into the tank and back to its directory: the listing is what it was. */
    method TankAndBack(root: NodeId, rel: RelPath, id: NodeId)
      requires Valid() && root in roots && Shown(nodes, root, rel, id)
      modifies this
      ensures forall p, x :: Shown(nodes, root, p, x) <==> Shown(old(nodes), root, p, x)
    {
      LeadsReaches(nodes, root, rel, id);
      assert rel == rel[..|rel| - 1] + [nodes[id].name];
      ShownHere(nodes, root, rel[..|rel| - 1], id, rank, bound);
      var _ := MoveToTank(root, id);
      var _ := MoveUnder(root, rel[..|rel| - 1], id);
    }

    /** Files.Delete on a file; one that is gone already counts as deleted. */
    method PermanentDelete(id: NodeId)
      requires Valid() && id in used && id !in roots && (id in nodes ==> !nodes[id].folder)
      modifies this
      ensures Valid() && roots == old(roots) && old(used) <= used && nodes == old(nodes) - {id}
      ensures forall root, p, x :: Shown(nodes, root, p, x) <==> Shown(old(nodes), root, p, x) && x != id
    {
      ghost var before := nodes;
      assert id in nodes ==> forall x :: x in nodes ==> nodes[x].parent != id;
      nodes := nodes - {id};
      if id in before {
        forall root, p, x ensures Shown(nodes, root, p, x) <==> Shown(before, root, p, x) && x != id {
          LeafShows(before, nodes, id, root);
        }
      } else {
        assert nodes == before;
      }
    }
  }
  /** A path with a component of the tank's name: two passes each create one more object, and no listing
      ever shows either. */
  method SentInEveryPass() returns (c: Client, first: NodeId, second: NodeId)
    ensures fresh(c) && c.Valid() && first != second
    ensures {first, second} <= c.nodes.Keys && c.nodes[first].name == c.nodes[second].name == "a.txt"
    ensures forall root, p, x :: root in c.roots ==> !Shown(c.nodes, root, p, x)
  {
    c := new Client("root");
    first := c.CreateFile("root", ["docs", TRASH_FOLDER_NAME], "a.txt");
    second := c.CreateFile("root", ["docs", TRASH_FOLDER_NAME], "a.txt");
  }
}
