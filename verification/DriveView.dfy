/** Why the engine may see a container as objects at paths: the folder tree's listing is that set of
    objects, and the tree operations are the Drive steps of a pass, a restore and a sweep. */
module DriveView {
  import opened SyncTypes
  import opened PlanSpec
  import opened PassMachine
  import Runs
  import opened FolderTree
  import opened FolderOps
  import PathNames

  function KeyOf(rel: RelId, p: RelPath): Key { Key(rel, PathNames.Join(p)) }

  /** The objects listed in relation rel are exactly what the tree shows under root. */
  ghost predicate Represents(t: Tree, root: NodeId, rel: RelId, objs: map<ObjId, Obj>) {
    && (forall p, id :: Shown(t, root, p, id) ==> PathNames.AreNames(p) && ObjectAt(objs, rel, p, id))
    && (forall id :: id in objs && objs[id].place.At? && objs[id].place.key.rel == rel ==> ShownSomewhere(t, root, rel, objs, id))
  }

  predicate ObjectAt(objs: map<ObjId, Obj>, rel: RelId, p: RelPath, id: ObjId) {
    id in objs && objs[id].place == At(KeyOf(rel, p))
  }

  ghost predicate ShownSomewhere(t: Tree, root: NodeId, rel: RelId, objs: map<ObjId, Obj>, id: ObjId) {
    exists p :: Shown(t, root, p, id) && ObjectAt(objs, rel, p, id)
  }

  /** From tree t to t2 the listing is as before for every object but id. */
  ghost predicate ElseShown(t: Tree, t2: Tree, root: NodeId, id: NodeId) {
    forall p, x :: x != id ==> (Shown(t2, root, p, x) <==> Shown(t, root, p, x))
  }

  lemma ElseRepresents(t: Tree, t2: Tree, root: NodeId, rel: RelId, objs: map<ObjId, Obj>, objs2: map<ObjId, Obj>, id: ObjId)
    requires Represents(t, root, rel, objs) && ElseShown(t, t2, root, id)
    requires forall x :: x != id ==> (x in objs2 <==> x in objs) && (x in objs ==> objs2[x] == objs[x])
    requires forall p :: Shown(t2, root, p, id) ==> PathNames.AreNames(p) && ObjectAt(objs2, rel, p, id)
    requires id in objs2 && objs2[id].place.At? && objs2[id].place.key.rel == rel ==> ShownSomewhere(t2, root, rel, objs2, id)
    ensures Represents(t2, root, rel, objs2)
  {
    forall p, x | Shown(t2, root, p, x) ensures PathNames.AreNames(p) && ObjectAt(objs2, rel, p, x) {
      if x != id { assert Shown(t, root, p, x) && ObjectAt(objs, rel, p, x); }
    }
    forall x | x in objs2 && objs2[x].place.At? && objs2[x].place.key.rel == rel ensures ShownSomewhere(t2, root, rel, objs2, x) {
      if x != id {
        assert ShownSomewhere(t, root, rel, objs, x);
        var p :| Shown(t, root, p, x) && ObjectAt(objs, rel, p, x);
        assert Shown(t2, root, p, x) && ObjectAt(objs2, rel, p, x);
      }
    }
  }

  /** Creating a file under a directory is the call of an upload task at the joined path, provided no
      component is the tank's name; moving a file there is the call of a restore. */
  lemma PlacedAt(t: Tree, t2: Tree, root: NodeId, rel: RelId, objs: map<ObjId, Obj>, id: ObjId, o: Obj, q: RelPath)
    requires Represents(t, root, rel, objs) && ElseShown(t, t2, root, id)
    requires forall p :: Shown(t2, root, p, id) <==> p == q && TRASH_FOLDER_NAME !in p
    requires PathNames.AreNames(q) && o.place == At(KeyOf(rel, q)) && TRASH_FOLDER_NAME !in q
    ensures Represents(t2, root, rel, objs[id := o])
  {
    assert Shown(t2, root, q, id) && ObjectAt(objs[id := o], rel, q, id);
    ElseRepresents(t, t2, root, rel, objs, objs[id := o], id);
  }

  lemma CreateIsTheUpload(t: Tree, t2: Tree, root: NodeId, w: World, i: nat, id: ObjId, q: RelPath)
    requires CanCall(w, i, id) && Creates(w.tasks[i])
    requires var k := w.tasks[i].key; k == KeyOf(k.rel, q) && Represents(t, root, k.rel, w.drive.objs)
    requires ElseShown(t, t2, root, id) && forall p :: Shown(t2, root, p, id) <==> p == q && TRASH_FOLDER_NAME !in p
    requires PathNames.AreNames(q) && TRASH_FOLDER_NAME !in q
    ensures Represents(t2, root, w.tasks[i].key.rel, DriveAfter(w, i, id).objs)
  {
    PlacedAt(t, t2, root, w.tasks[i].key.rel, w.drive.objs, id, ObjectAfter(w.drive, w.local, w.tasks[i], id), q);
  }

  /** Moving a file into the tank is the call of a trash or dedupe task. */
  lemma TankIsTheTrashing(t: Tree, t2: Tree, root: NodeId, w: World, i: nat, id: ObjId)
    requires CanCall(w, i, id) && w.tasks[i].action in {Trash, Dedupe}
    requires Represents(t, root, w.tasks[i].key.rel, w.drive.objs)
    requires forall p, x :: Shown(t2, root, p, x) <==> Shown(t, root, p, x) && x != id
    ensures Represents(t2, root, w.tasks[i].key.rel, DriveAfter(w, i, id).objs)
  {
    ElseRepresents(t, t2, root, w.tasks[i].key.rel, w.drive.objs, DriveAfter(w, i, id).objs, id);
  }

  /** An update in place leaves the tree alone. */
  lemma UpdateKeepsTheTree(t: Tree, root: NodeId, w: World, i: nat, id: ObjId)
    requires CanCall(w, i, id) && Uploads(w.tasks[i].action) && !Creates(w.tasks[i])
    requires Represents(t, root, w.tasks[i].key.rel, w.drive.objs)
    ensures Represents(t, root, w.tasks[i].key.rel, DriveAfter(w, i, id).objs)
  {
    var rel, objs := w.tasks[i].key.rel, w.drive.objs;
    forall p | Shown(t, root, p, id) ensures PathNames.AreNames(p) && ObjectAt(DriveAfter(w, i, id).objs, rel, p, id) {
      assert ObjectAt(objs, rel, p, id);
    }
    if objs[id].place.At? && objs[id].place.key.rel == rel {
      assert ShownSomewhere(t, root, rel, objs, id);
      var p :| Shown(t, root, p, id) && ObjectAt(objs, rel, p, id);
      assert ObjectAt(DriveAfter(w, i, id).objs, rel, p, id);
    }
    ElseRepresents(t, t, root, rel, objs, DriveAfter(w, i, id).objs, id);
  }

  /** Moving a file back to its directory is the last step of a restore. */
  lemma MoveIsTheRestore(t: Tree, t2: Tree, root: NodeId, rel: RelId, objs: map<ObjId, Obj>, id: ObjId, q: RelPath)
    requires id in objs && Represents(t, root, rel, objs) && ElseShown(t, t2, root, id)
    requires forall p :: Shown(t2, root, p, id) <==> p == q && TRASH_FOLDER_NAME !in p
    requires PathNames.AreNames(q) && TRASH_FOLDER_NAME !in q
    ensures Represents(t2, root, rel, objs[id := Moved(objs[id], At(KeyOf(rel, q)))])
  {
    PlacedAt(t, t2, root, rel, objs, id, Moved(objs[id], At(KeyOf(rel, q))), q);
  }

  /** Deleting a file permanently is what a sweep, a purge and an outside deletion do. */
  lemma DeleteIsTheDrop(t: Tree, t2: Tree, root: NodeId, rel: RelId, d: Drive, id: ObjId)
    requires Represents(t, root, rel, d.objs)
    requires forall p, x :: Shown(t2, root, p, x) <==> Shown(t, root, p, x) && x != id
    ensures Represents(t2, root, rel, Runs.DropObject(d, id).objs)
  {
    ElseRepresents(t, t2, root, rel, d.objs, Runs.DropObject(d, id).objs, id);
  }

  // ---- the other containers of the same tree ----

  /** While something is done to an object of one relation, another relation's container goes on
      representing its objects. */
  lemma OtherContainerStays(t: Tree, t2: Tree, root: NodeId, rel: RelId, objs: map<ObjId, Obj>, objs2: map<ObjId, Obj>, id: ObjId)
    requires Represents(t, root, rel, objs)
    requires forall p, x :: Shown(t2, root, p, x) <==> x != id && Shown(t, root, p, x)
    requires forall x :: x != id ==> (x in objs2 <==> x in objs) && (x in objs ==> objs2[x] == objs[x])
    requires id in objs2 ==> RelOf(objs2[id].place) != rel
    ensures Represents(t2, root, rel, objs2)
  {
    ElseRepresents(t, t2, root, rel, objs, objs2, id);
  }

  /** So it is for the call of any task of another relation on an object of that relation. */
  lemma CallSparesOthers(t: Tree, t2: Tree, root: NodeId, rel: RelId, w: World, i: nat, id: ObjId)
    requires CanCall(w, i, id) && CallsDrive(w.tasks[i]) && w.tasks[i].key.rel != rel
    requires !Creates(w.tasks[i]) ==> RelOf(w.drive.objs[id].place) != rel
    requires Represents(t, root, rel, w.drive.objs)
    requires forall p, x :: Shown(t2, root, p, x) <==> x != id && Shown(t, root, p, x)
    ensures Represents(t2, root, rel, DriveAfter(w, i, id).objs)
  {
    OtherContainerStays(t, t2, root, rel, w.drive.objs, DriveAfter(w, i, id).objs, id);
  }

  /** For the move of a restore, and for a permanent deletion. */
  lemma RestoreSparesOthers(t: Tree, t2: Tree, root: NodeId, rel: RelId, objs: map<ObjId, Obj>, id: ObjId, k: Key)
    requires id in objs && Represents(t, root, rel, objs) && k.rel != rel
    requires forall p, x :: Shown(t2, root, p, x) <==> x != id && Shown(t, root, p, x)
    ensures Represents(t2, root, rel, objs[id := Moved(objs[id], At(k))])
  {
    OtherContainerStays(t, t2, root, rel, objs, objs[id := Moved(objs[id], At(k))], id);
  }

  lemma DropSparesOthers(t: Tree, t2: Tree, root: NodeId, rel: RelId, d: Drive, id: ObjId)
    requires Represents(t, root, rel, d.objs)
    requires forall p, x :: Shown(t2, root, p, x) <==> x != id && Shown(t, root, p, x)
    ensures Represents(t2, root, rel, Runs.DropObject(d, id).objs)
  {
    OtherContainerStays(t, t2, root, rel, d.objs, Runs.DropObject(d, id).objs, id);
  }

  // ---- the listing ----

  /** The listing handed to the engine is the recursive listing, path by path. */
  ghost predicate ListingFrom(flat: Flat, rel: RelId, d: Drive, listing: Listing) {
    && (forall k :: k in listing ==> k.rel == rel && exists p :: PathNames.AreNames(p) && k == KeyOf(rel, p))
    && (forall p :: PathNames.AreNames(p) ==> DescribedAt(flat, rel, d, listing, p))
  }

  ghost predicate DescribedAt(flat: Flat, rel: RelId, d: Drive, listing: Listing, p: RelPath) {
    && |ListedAt(listing, KeyOf(rel, p))| == |Objects(flat, p)|
    && forall i :: 0 <= i < |Objects(flat, p)| ==>
         Objects(flat, p)[i] in d.objs && ListedAt(listing, KeyOf(rel, p))[i] == Describe(Objects(flat, p)[i], d.objs[Objects(flat, p)[i]])
  }

  /** What ListFolderRecursive returns is a listing of the container, as a pass requires it. */
  lemma FlatIsListing(t: Tree, root: NodeId, target: FolderTarget, d: Drive, flat: Flat, listing: Listing)
    requires Represents(t, root, target.id, d.objs) && ListedOnce(flat)
    requires forall p, id :: id in Objects(flat, p) <==> Shown(t, root, p, id)
    requires ListingFrom(flat, target.id, d, listing)
    ensures ListingOf([target], d, listing)
  {
    var rel := target.id;
    assert [target][0].id == rel;
    forall k, i | 0 <= i < |ListedAt(listing, k)|
      ensures var f := ListedAt(listing, k)[i]; f.id in d.objs && d.objs[f.id].place == At(k) && f == Describe(f.id, d.objs[f.id])
    {
      var p :| PathNames.AreNames(p) && k == KeyOf(rel, p);
      assert DescribedAt(flat, rel, d, listing, p);
      assert Objects(flat, p)[i] in Objects(flat, p);
      assert Shown(t, root, p, Objects(flat, p)[i]) && ObjectAt(d.objs, rel, p, Objects(flat, p)[i]);
    }
    forall k, i, j | 0 <= i < j < |ListedAt(listing, k)| ensures ListedAt(listing, k)[i].id != ListedAt(listing, k)[j].id {
      var p :| PathNames.AreNames(p) && k == KeyOf(rel, p);
      assert DescribedAt(flat, rel, d, listing, p);
    }
    forall id | id in d.objs && d.objs[id].place.At? && InChain([target], d.objs[id].place.key.rel)
      ensures PlanSpec.Holds(ListedAt(listing, d.objs[id].place.key), id)
    {
      assert ShownSomewhere(t, root, rel, d.objs, id);
      var p :| Shown(t, root, p, id) && ObjectAt(d.objs, rel, p, id);
      assert DescribedAt(flat, rel, d, listing, p);
      var i :| 0 <= i < |Objects(flat, p)| && Objects(flat, p)[i] == id;
      assert ListedAt(listing, KeyOf(rel, p))[i].id == id;
    }
  }
  // ---- paths with a component of the tank's name ----

  /** No tree's listing has anything at such a path, so every pass that finds it tracked creates a
      new object for it. */
  lemma TankNameIsSentAgain(t: Tree, root: NodeId, rel: RelId, d: Drive, flat: Flat, s: Snapshot, q: RelPath)
    requires (forall p, id :: id in Objects(flat, p) <==> Shown(t, root, p, id)) && ListingFrom(flat, rel, d, s.listing)
    requires PathNames.AreNames(q) && TRASH_FOLDER_NAME in q
    requires KeyOf(rel, q) in s.base && s.base[KeyOf(rel, q)].remoteId != "" && KeyOf(rel, q).path in s.local
    ensures ListedAt(s.listing, KeyOf(rel, q)) == [] && Creates(OwnedTask(s, KeyOf(rel, q)))
  {
    if Objects(flat, q) != [] {
      assert Shown(t, root, q, Objects(flat, q)[0]);
      LeadsReaches(t, root, q, Objects(flat, q)[0]);
    }
    assert DescribedAt(flat, rel, d, s.listing, q);
  }
}
