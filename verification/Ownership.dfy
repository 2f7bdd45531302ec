/** Who owns a path, and what a pass leaves alone: ownership, other chains' rows and foreign data. */
module Ownership {
  import opened SyncTypes
  import opened Merging
  import opened PlanSpec
  import opened PassMachine
  import opened PlanSound
  import opened Schedule

  /** At most one live row per path among the relations of a chain. */
  ghost predicate SingleOwners(chain: seq<FolderTarget>, rows: Rows) {
    forall k, l :: OwnsIn(chain, rows, k) && OwnsIn(chain, rows, l) && k.path == l.path ==> k == l
  }

  ghost predicate OwnsIn(chain: seq<FolderTarget>, rows: Rows, k: Key) {
    InChain(chain, k.rel) && Live(rows, k)
  }

  /** The chain after the pass: the one it started with, and then the spillover relations it
      provisioned, which are new and whose containers were empty. */
  ghost predicate Grown(chain: seq<FolderTarget>, longer: seq<FolderTarget>, w0: World, route: map<Path, RelId>) {
    && |chain| <= |longer| && longer[..|chain|] == chain
    && (forall p :: p in route ==> InChain(longer, route[p]))
    && (forall k: Key :: InChain(longer, k.rel) && !InChain(chain, k.rel) ==> k !in w0.rows)
    && (forall id :: id in w0.drive.objs && w0.drive.objs[id].place.At? ==>
          InChain(longer, w0.drive.objs[id].place.key.rel) ==> InChain(chain, w0.drive.objs[id].place.key.rel))
  }

  lemma InLonger(chain: seq<FolderTarget>, longer: seq<FolderTarget>, rel: RelId)
    requires |chain| <= |longer| && longer[..|chain|] == chain && InChain(chain, rel)
    ensures InChain(longer, rel)
  {
    var i :| 0 <= i < |chain| && chain[i].id == rel;
    assert longer[i] == longer[..|chain|][i];
  }

  ghost predicate Started(w0: World, s: Snapshot, owner: map<Path, RelId>, route: map<Path, RelId>, w: World) {
    Planning(w0, s, owner, route) && Mirrors(w0, w)
  }

  /** A live row of the chain after a pass, complete or cut short, is one the pass started
      with and left alone, or the one its own task for that path wrote. */
  lemma LiveRowOrigin(w0: World, s: Snapshot, owner: map<Path, RelId>, route: map<Path, RelId>, w: World,
                      longer: seq<FolderTarget>, k: Key) returns (i: int)
    requires Started(w0, s, owner, route, w) && Grown(s.chain, longer, w0, route) && OwnsIn(longer, w.rows, k)
    ensures i == -1 ==> k in s.base && w.rows[k] == s.base[k] && k.path in owner && Unwritten(w, k)
    ensures i != -1 ==>
              && Wrote(w, i, k) && 0 <= i < |w.tasks| && w.tasks[i].key == k
              && (Uploads(w.tasks[i].action) || w.tasks[i].action == Adopt)
              && Planned(s, owner, route, w.tasks[i]) && k.path in w0.local
  {
    if j :| Wrote(w, j, k) {
      i := j;
      assert TaskSoundAt(w0, j);
    } else {
      i := -1;
      assert Unwritten(w, k);
      assert SameRow(w0.rows, w.rows, k);
    }
  }

  /** When ownership was single, a path that had an owner is owned by it afterwards, if by anyone. */
  lemma LiveRowAtOwner(w0: World, s: Snapshot, owner: map<Path, RelId>, route: map<Path, RelId>, w: World,
                       longer: seq<FolderTarget>, k: Key) returns (i: int)
    requires Started(w0, s, owner, route, w) && Grown(s.chain, longer, w0, route) && OwnsIn(longer, w.rows, k)
    requires SingleOwners(s.chain, w0.rows)
    ensures if k.path in owner then k.rel == owner[k.path]
            else 0 <= i < |w.tasks| && w.tasks[i].key == k && WritesRow(w.tasks[i]) && k.path in w0.local
  {
    i := LiveRowOrigin(w0, s, owner, route, w, longer, k);
    if i == -1 {
      assert OwnsIn(s.chain, w0.rows, Key(owner[k.path], k.path)) && OwnsIn(s.chain, w0.rows, k);
    }
  }

  lemma LiveRowsAgree(w0: World, s: Snapshot, owner: map<Path, RelId>, route: map<Path, RelId>, w: World,
                      longer: seq<FolderTarget>, k: Key, l: Key)
    requires Started(w0, s, owner, route, w) && Grown(s.chain, longer, w0, route)
    requires SingleOwners(s.chain, w0.rows)
    requires OwnsIn(longer, w.rows, k) && OwnsIn(longer, w.rows, l) && k.path == l.path
    ensures k == l
  {
    var i := LiveRowAtOwner(w0, s, owner, route, w, longer, k);
    var j := LiveRowAtOwner(w0, s, owner, route, w, longer, l);
    if k.path !in owner {
      OneWriter(w0, s, owner, route, i, j);
    }
  }

  /** Ownership stays single, also when the pass was interrupted or extended the chain. */
  lemma OwnershipStaysSingle(w0: World, s: Snapshot, owner: map<Path, RelId>, route: map<Path, RelId>, w: World,
                             longer: seq<FolderTarget>)
    requires Started(w0, s, owner, route, w) && Grown(s.chain, longer, w0, route)
    requires SingleOwners(s.chain, w0.rows)
    ensures SingleOwners(longer, w.rows)
  {
    forall k, l | OwnsIn(longer, w.rows, k) && OwnsIn(longer, w.rows, l) && k.path == l.path ensures k == l {
      LiveRowsAgree(w0, s, owner, route, w, longer, k, l);
    }
  }

  lemma OneWriter(w0: World, s: Snapshot, owner: map<Path, RelId>, route: map<Path, RelId>, i: nat, j: nat)
    requires Planning(w0, s, owner, route)
    requires i < |w0.tasks| && j < |w0.tasks| && WritesRow(w0.tasks[i]) && WritesRow(w0.tasks[j])
    requires w0.tasks[i].key.path == w0.tasks[j].key.path
    ensures i == j
  {
    if i < j {
      RowWritersDiffer(w0, s, owner, route, i, j);
    } else if j < i {
      RowWritersDiffer(w0, s, owner, route, j, i);
    }
  }

  /** Every task for an owned path names its owner, and no path gets two tasks besides dedupes. */
  lemma TasksFollowOwners(w0: World, s: Snapshot, owner: map<Path, RelId>, route: map<Path, RelId>, i: nat, j: nat)
    requires Planning(w0, s, owner, route) && i < j < |w0.tasks|
    ensures w0.tasks[i].key.path in owner ==> w0.tasks[i].key.rel == owner[w0.tasks[i].key.path]
    ensures w0.tasks[i].action == Dedupe ==> w0.tasks[i].key.path in owner
    ensures w0.tasks[i].key.path == w0.tasks[j].key.path ==>
              w0.tasks[i].action == Dedupe || w0.tasks[j].action == Dedupe
  {
    assert Planned(s, owner, route, w0.tasks[i]);
    if WritesRow(w0.tasks[i]) && WritesRow(w0.tasks[j]) {
      RowWritersDiffer(w0, s, owner, route, i, j);
    }
  }

  /** Rows of relations outside the chain are as they were. */
  lemma OtherChainsUntouched(w0: World, s: Snapshot, owner: map<Path, RelId>, route: map<Path, RelId>, w: World, k: Key)
    requires Started(w0, s, owner, route, w)
    requires !InChain(s.chain, k.rel) && (forall p :: p in route ==> route[p] != k.rel)
    ensures SameRow(w0.rows, w.rows, k)
  {
    forall i ensures !Wrote(w, i, k) {
      if 0 <= i < |w.tasks| {
        assert Planned(s, owner, route, w.tasks[i]);
      }
    }
    assert Unwritten(w, k);
  }

  // ---- foreign data ----

  /** Why an object was moved to the holding tank. */
  ghost predicate TankedForCause(w0: World, s: Snapshot, t: Task, id: ObjId) {
    || (t.action == Trash && Live(w0.rows, t.key) && w0.rows[t.key].remoteId == id && t.key.path !in w0.local)
    || (t.action == Dedupe && id in w0.drive.objs && DigestOf(w0.drive.objs[id].content) != NoDigest
        && exists c :: c != id && c in w0.drive.objs && w0.drive.objs[c].place == At(t.key)
             && w0.drive.objs[id].place == At(t.key)
             && Picked(ListedAt(s.listing, t.key), if t.key in s.base then Some(BaseOf(s.base[t.key])) else None)
                  == Some(StateOf(Describe(c, w0.drive.objs[c])))
             && DigestOf(w0.drive.objs[c].content) == DigestOf(w0.drive.objs[id].content))
  }

  lemma DedupeHasCause(w0: World, s: Snapshot, owner: map<Path, RelId>, route: map<Path, RelId>, t: Task)
    requires Planning(w0, s, owner, route) && Planned(s, owner, route, t) && t.action == Dedupe
    ensures t.remote.Some? && TankedForCause(w0, s, t, t.remote.value.id)
  {
    var cands, base := ListedAt(s.listing, t.key), Some(BaseOf(s.base[t.key]));
    var n :| Redundant(cands, base, n) && t == DedupeTask(t.key, cands[n]);
    var m := PickIndex(cands, base);
    ListedIsThere(w0, s, t.key, n);
    ListedIsThere(w0, s, t.key, m);
    if cands[n].id == cands[m].id { ListedOnce(w0.drive, s, t.key, n, m); }
    var c := cands[m].id;
    assert c != cands[n].id && w0.drive.objs[c].place == At(t.key);
  }

  lemma MovedForCause(w0: World, s: Snapshot, owner: map<Path, RelId>, route: map<Path, RelId>, w: World, id: ObjId, i: nat)
    requires Started(w0, s, owner, route, w) && id in w0.drive.objs && Touches(w, i, id)
    ensures id in w.drive.objs
    ensures w.drive.objs[id].place != w0.drive.objs[id].place ==>
              w.drive.objs[id].place.Tank? && TankedForCause(w0, s, w.tasks[i], id)
  {
    assert AnswerOk(w0, w.tasks[i], w.phase[i].rf) && TaskSoundAt(w0, i);
    assert Planned(s, owner, route, w.tasks[i]);
    if w.tasks[i].action == Dedupe { DedupeHasCause(w0, s, owner, route, w.tasks[i]); }
  }

  lemma ChangedByUpload(w0: World, w: World, id: ObjId, i: nat)
    requires Mirrors(w0, w) && id in w0.drive.objs && Touches(w, i, id) && id in w.drive.objs
    ensures w.drive.objs[id].content != w0.drive.objs[id].content ==>
              Uploads(w.tasks[i].action)
              && w0.drive.objs[id].place == At(w.tasks[i].key) && w.tasks[i].key.path in w0.local
              && w.drive.objs[id].content == Binary(w0.local[w.tasks[i].key.path].bytes)
  {
    assert AnswerOk(w0, w.tasks[i], w.phase[i].rf) && TaskSoundAt(w0, i);
  }

  /** A pass, complete or cut short, never destroys or disturbs foreign data. No object
      disappears; an object moves only into the holding tank, and only if it is the tracked
      object of a locally deleted path or an exact copy of the different object the pass
      picked at the same position; its content changes only under an upload of the local
      file of its own path. */
  lemma ForeignDataSurvives(w0: World, s: Snapshot, owner: map<Path, RelId>, route: map<Path, RelId>, w: World, id: ObjId)
    requires Started(w0, s, owner, route, w) && id in w0.drive.objs
    ensures id in w.drive.objs
    ensures w.drive.objs[id].place != w0.drive.objs[id].place ==>
              w.drive.objs[id].place.Tank? && exists i :: Touches(w, i, id) && TankedForCause(w0, s, w.tasks[i], id)
    ensures w.drive.objs[id].content != w0.drive.objs[id].content ==>
              exists i :: Touches(w, i, id) && Uploads(w.tasks[i].action)
                && w0.drive.objs[id].place == At(w.tasks[i].key) && w.tasks[i].key.path in w0.local
                && w.drive.objs[id].content == Binary(w0.local[w.tasks[i].key.path].bytes)
  {
    if i :| Touches(w, i, id) {
      MovedForCause(w0, s, owner, route, w, id, i);
      ChangedByUpload(w0, w, id, i);
    } else {
      assert Untouched(w, id);
      assert SameObject(w0.drive, w.drive, id);
    }
  }

  /** Remote-only untracked paths appear in no task, and their objects are not touched at all. */
  lemma RemoteOnlyIgnored(w0: World, s: Snapshot, owner: map<Path, RelId>, route: map<Path, RelId>, w: World, p: Path)
    requires Started(w0, s, owner, route, w) && p !in w0.local && p !in owner
    ensures forall i :: 0 <= i < |w.tasks| ==> w.tasks[i].key.path != p
    ensures forall id, rel :: id in w0.drive.objs && w0.drive.objs[id].place == At(Key(rel, p)) ==>
              SameObject(w0.drive, w.drive, id)
  {
    forall i | 0 <= i < |w.tasks| ensures w.tasks[i].key.path != p {
      assert Planned(s, owner, route, w.tasks[i]);
    }
    forall id, rel | id in w0.drive.objs && w0.drive.objs[id].place == At(Key(rel, p))
      ensures SameObject(w0.drive, w.drive, id)
    {
      forall i ensures !Touches(w, i, id) {
        if 0 <= i < |w.tasks| && !w.phase[i].Waiting? {
          assert AnswerOk(w0, w.tasks[i], w.phase[i].rf) && TaskSoundAt(w0, i);
          if w.tasks[i].action == Trash {
            assert TrackedOk(w0.drive.objs[w.phase[i].rf.id], w0.rows, w.tasks[i].key);
          }
        }
      }
      assert Untouched(w, id);
    }
  }
}
