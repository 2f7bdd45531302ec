/** Losing the tracking rows: adoption rebuilds them without sending a byte. */
module StateLoss {
  import opened SyncTypes
  import opened Merging
  import opened PlanSpec
  import opened PassMachine
  import opened PlanSound
  import opened Schedule
  import opened MirrorLaw
  import opened Ownership
  import opened Convergence
  import opened Recovery

  /** One object per path across the whole chain. */
  ghost predicate OnePerPath(chain: seq<FolderTarget>, d: Drive) {
    forall a, b :: ListedIn(chain, d, a) && ListedIn(chain, d, b) ==>
      d.objs[a].place.key.path == d.objs[b].place.key.path ==> a == b
  }

  ghost predicate ListedIn(chain: seq<FolderTarget>, d: Drive, id: ObjId) {
    id in d.objs && d.objs[id].place.At? && InChain(chain, d.objs[id].place.key.rel)
  }

  /** The same stores without the chain's rows. */
  ghost predicate RowsLost(chain: seq<FolderTarget>, w: World, v0: World) {
    && v0.local == w.local && v0.drive == w.drive
    && (forall k: Key :: InChain(chain, k.rel) ==> k !in v0.rows)
    && (forall k: Key :: !InChain(chain, k.rel) ==> SameRow(w.rows, v0.rows, k))
  }

  /** Equal in everything but the remote version, the CONFLICT flag and fractions of a second. */
  ghost predicate SameTracking(m: FileMeta, n: FileMeta) {
    && m.remoteId == n.remoteId && m.remoteMd5 == n.remoteMd5 && m.localSize == n.localSize
    && Seconds(m.localMtime) == Seconds(n.localMtime)
  }

  lemma SyncedKey(chain: seq<FolderTarget>, w: World, p: Path) returns (k: Key)
    requires Mirrored(chain, w) && p in w.local
    ensures k.path == p && OwnsIn(chain, w.rows, k) && InSync(w, k)
  {
    assert HasOwner(chain, w.rows, p);
    k :| k.path == p && OwnsIn(chain, w.rows, k);
  }

  /** What the plan sees of a path after the rows are gone: its one object, as adoption candidate. */
  lemma LostPathIsAdopted(w: World, v0: World, s: Snapshot, route: map<Path, RelId>, k: Key)
    requires RowsLost(s.chain, w, v0) && OnePerPath(s.chain, w.drive)
    requires OwnsIn(s.chain, w.rows, k) && InSync(w, k)
    requires SnapshotOf(s, v0.local, v0.drive, v0.rows) && s.unreadable == {}
    ensures NewTask(s, route, k.path).Some?
    ensures var t := NewTask(s, route, k.path).value;
      t.action == Adopt && t.key == k && t.remote.Some? && t.remote.value.id == w.rows[k].remoteId
  {
    var id := w.rows[k].remoteId;
    assert Holds(ListedAt(s.listing, k), id);
    var c :| 0 <= c < |s.chain| && s.chain[c].id == k.rel;
    var n := FirstListed(s.chain, s.listing, k.path, c);
    TwinAtIsTwin(s.chain, s.listing, k.path, n);
    TwinIsFirst(s.chain, s.listing, k.path);
    var l := Key(s.chain[n].id, k.path);
    var g := ListedAt(s.listing, l)[0];
    assert g.id in v0.drive.objs && v0.drive.objs[g.id].place == At(l);
    assert ListedIn(s.chain, w.drive, g.id) && ListedIn(s.chain, w.drive, id);
  }

  /** Every task of the pass after a loss adopts. */
  lemma LostPlanAdopts(w: World, v0: World, s: Snapshot, owner: map<Path, RelId>, route: map<Path, RelId>, i: nat)
    requires Mirrored(s.chain, w) && RowsLost(s.chain, w, v0) && OnePerPath(s.chain, w.drive)
    requires Planning(v0, s, owner, route) && s.unreadable == {} && i < |v0.tasks|
    ensures v0.tasks[i].action == Adopt && OwnsIn(s.chain, w.rows, v0.tasks[i].key)
  {
    var t := v0.tasks[i];
    assert Planned(s, owner, route, t);
    var k := SyncedKey(s.chain, w, t.key.path);
    LostPathIsAdopted(w, v0, s, route, k);
  }

  lemma LostRowIsRebuilt(w: World, v0: World, s: Snapshot, owner: map<Path, RelId>, route: map<Path, RelId>, v: World, k: Key)
    requires Mirrored(s.chain, w) && RowsLost(s.chain, w, v0) && OnePerPath(s.chain, w.drive)
    requires Completed(v0, s, owner, route, v) && s.unreadable == {}
    requires OwnsIn(s.chain, w.rows, k)
    ensures OwnsIn(s.chain, v.rows, k) && SameTracking(w.rows[k], v.rows[k])
    ensures v.rows[k].status == Synced && v.rows[k].deletedAt == None
  {
    assert InSync(w, k);
    LostPathIsAdopted(w, v0, s, route, k);
    var j := NewTaskIsPlanned(v0, s, owner, route, k.path);
    assert AnswerOk(v0, v.tasks[j], v.phase[j].rf) && TaskSoundAt(v0, j);
  }

  /** State-loss round trip. From a mirrored chain with one object per path, deleting every
      row and running a pass adopts every file and sends nothing: Drive is not touched, and
      exactly the lost live rows are back, equal in relation, path, size, second, object and
      hash. */
  lemma StateLossRoundTrip(w: World, v0: World, s: Snapshot, owner: map<Path, RelId>, route: map<Path, RelId>, v: World)
    requires Mirrored(s.chain, w) && RowsLost(s.chain, w, v0) && OnePerPath(s.chain, w.drive)
    requires Completed(v0, s, owner, route, v) && s.unreadable == {}
    ensures forall i :: 0 <= i < |v.tasks| ==> v.tasks[i].action == Adopt
    ensures v.drive.objs == w.drive.objs
    ensures forall k :: OwnsIn(s.chain, v.rows, k) <==> OwnsIn(s.chain, w.rows, k)
    ensures forall k :: OwnsIn(s.chain, w.rows, k) ==> k in v.rows && SameTracking(w.rows[k], v.rows[k])
    ensures forall k: Key :: !InChain(s.chain, k.rel) ==> SameRow(w.rows, v.rows, k)
  {
    forall i | 0 <= i < |v.tasks| ensures v.tasks[i].action == Adopt && OwnsIn(s.chain, w.rows, v.tasks[i].key) {
      LostPlanAdopts(w, v0, s, owner, route, i);
    }
    forall id ensures SameObject(v0.drive, v.drive, id) {
      assert Untouched(v, id);
    }
    SameObjects(v0.drive, v.drive);
    forall k | OwnsIn(s.chain, w.rows, k) ensures OwnsIn(s.chain, v.rows, k) && SameTracking(w.rows[k], v.rows[k]) {
      LostRowIsRebuilt(w, v0, s, owner, route, v, k);
    }
    forall k | OwnsIn(s.chain, v.rows, k) ensures OwnsIn(s.chain, w.rows, k) {
      LiveWasWritten(v0, v, k);
    }
    forall k: Key | !InChain(s.chain, k.rel) ensures SameRow(w.rows, v.rows, k) {
      assert Unwritten(v, k);
    }
  }

  lemma LiveWasWritten(v0: World, v: World, k: Key)
    requires Mirrors(v0, v) && k in v.rows && k !in v0.rows
    ensures exists i :: Wrote(v, i, k)
  {
    assert !SameRow(v0.rows, v.rows, k);
    assert !Unwritten(v, k);
  }

  // ---- what adoption does not do ----

  /** findRemoteTwin's comment promises to prefer a candidate whose content matches. The code
      takes the first candidate: an untracked file is adopted exactly when it could be hashed
      and the first candidate of the first relation that lists its path has that hash. */
  lemma AdoptedExactlyWhenFirstMatches(s: Snapshot, route: map<Path, RelId>, p: Path, m: nat)
    requires p in s.local && TwinAt(s.chain, s.listing, p, m)
    ensures var t := NewTask(s, route, p);
      t.Some? && (t.value.action == Adopt <==>
        p !in s.unreadable && ListedAt(s.listing, Key(s.chain[m].id, p))[0].md5 == Md5(s.local[p].bytes))
  {
    TwinAtIsTwin(s.chain, s.listing, p, m);
    TwinIsFirst(s.chain, s.listing, p);
  }

  /** Two candidates, the second identical to the local file: the first, foreign one is
      overwritten with content that is already there. */
  lemma MatchingSecondCandidateIsNotPreferred()
    ensures var s := Snapshot([FolderTarget(1, "a", 0)], map["f" := LocalFile([7], 0)],
                              map[Key(1, "f") := [RemoteFile("x", 1, 1, Md5([8])), RemoteFile("y", 1, 1, Md5([7]))]],
                              map[], {});
      NewTask(s, map[], "f") ==
        Some(Task(Key(1, "f"), Upload, Some(LocalState(0, 1)), Some(RemoteState("x", Md5([8]), 1))))
  {
    var s := Snapshot([FolderTarget(1, "a", 0)], map["f" := LocalFile([7], 0)],
                      map[Key(1, "f") := [RemoteFile("x", 1, 1, Md5([8])), RemoteFile("y", 1, 1, Md5([7]))]],
                      map[], {});
    assert TwinAt(s.chain, s.listing, "f", 0);
    TwinAtIsTwin(s.chain, s.listing, "f", 0);
    TwinIsFirst(s.chain, s.listing, "f");
  }
}
