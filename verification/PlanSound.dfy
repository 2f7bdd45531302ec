/** The plan of a pass is safe to run in any order: its tasks write pairwise different rows,
    work on pairwise different objects, and never work on another path's tracked object. */
module PlanSound {
  import opened SyncTypes
  import opened Merging
  import opened PlanSpec
  import opened PassMachine

  /** The row invariant: every row names one issued object, no two rows name the same one,
      a listed tracked object is where its own live row says it is, and tracked objects
      carry content hashes. */
  ghost predicate RowsOk(drive: Drive, rows: Rows) {
    && drive.objs.Keys <= drive.used
    && "" !in drive.used
    && (forall k :: k in rows ==> rows[k].remoteId in drive.used && rows[k].remoteMd5 != NoDigest)
    && (forall k, l :: k in rows && l in rows && k != l ==> rows[k].remoteId != rows[l].remoteId)
    && (forall k :: k in rows && rows[k].remoteId in drive.objs ==> TrackedOk(drive.objs[rows[k].remoteId], rows, k))
  }

  ghost predicate TrackedOk(o: Obj, rows: Rows, k: Key) {
    && o.content.Binary?
    && (o.place.At? ==> o.place.key == k && Live(rows, k))
  }

  ghost predicate Planning(w: World, s: Snapshot, owner: map<Path, RelId>, route: map<Path, RelId>) {
    && WellFormed(w) && AllWaiting(w)
    && RowsOk(w.drive, w.rows)
    && SnapshotOf(s, w.local, w.drive, w.rows)
    && IsPlan(s, owner, route, w.tasks)
  }

  /** Every remote state a task carries was listed at the task's own position. */
  ghost predicate Observed(s: Snapshot, t: Task) {
    t.remote.Some? ==>
      exists i :: 0 <= i < |ListedAt(s.listing, t.key)| && t.remote.value == StateOf(ListedAt(s.listing, t.key)[i])
  }

  lemma PlannedObserved(s: Snapshot, owner: map<Path, RelId>, route: map<Path, RelId>, t: Task)
    requires Planned(s, owner, route, t)
    ensures Observed(s, t)
  {
  }

  lemma ListedIsThere(w: World, s: Snapshot, k: Key, i: nat)
    requires ListingOf(s.chain, w.drive, s.listing)
    requires i < |ListedAt(s.listing, k)|
    ensures var f := ListedAt(s.listing, k)[i];
      f.id in w.drive.objs && w.drive.objs[f.id].place == At(k) && f == Describe(f.id, w.drive.objs[f.id])
  {
  }

  lemma ListedOnce(drive: Drive, s: Snapshot, k: Key, i: nat, j: nat)
    requires ListingOf(s.chain, drive, s.listing)
    requires i < |ListedAt(s.listing, k)| && j < |ListedAt(s.listing, k)|
    requires ListedAt(s.listing, k)[i].id == ListedAt(s.listing, k)[j].id
    ensures i == j
  {
  }

  /** A redundant copy is never the object the row tracks. */
  lemma RedundantIsUntracked(w: World, s: Snapshot, k: Key, i: nat)
    requires RowsOk(w.drive, w.rows) && SnapshotOf(s, w.local, w.drive, w.rows)
    requires k in s.base && Redundant(ListedAt(s.listing, k), Some(BaseOf(s.base[k])), i)
    ensures forall l :: l in w.rows ==> w.rows[l].remoteId != ListedAt(s.listing, k)[i].id
  {
    var cands := ListedAt(s.listing, k);
    var base := Some(BaseOf(s.base[k]));
    ListedIsThere(w, s, k, i);
    var n := PickIndex(cands, base);
    assert cands[i].id == s.base[k].remoteId ==> Holds(cands, s.base[k].remoteId);
    assert cands[n].id == cands[i].id ==> n == i by {
      if cands[n].id == cands[i].id { ListedOnce(w.drive, s, k, n, i); }
    }
  }

  lemma ObservedIsThere(w: World, s: Snapshot, t: Task)
    requires ListingOf(s.chain, w.drive, s.listing) && Observed(s, t) && t.remote.Some?
    ensures var r := t.remote.value;
      r.id in w.drive.objs && w.drive.objs[r.id].place == At(t.key) && r == StateOf(Describe(r.id, w.drive.objs[r.id]))
  {
    var j :| 0 <= j < |ListedAt(s.listing, t.key)| && t.remote.value == StateOf(ListedAt(s.listing, t.key)[j]);
    ListedIsThere(w, s, t.key, j);
  }

  lemma PlannedTaskSound(w: World, s: Snapshot, owner: map<Path, RelId>, route: map<Path, RelId>, i: nat)
    requires Planning(w, s, owner, route) && i < |w.tasks|
    ensures TaskSound(w, w.tasks[i])
  {
    var t := w.tasks[i];
    PlannedObserved(s, owner, route, t);
    if t.remote.Some? { ObservedIsThere(w, s, t); }
    PlannedShape(w, s, owner, route, t);
  }

  lemma PlannedShape(w: World, s: Snapshot, owner: map<Path, RelId>, route: map<Path, RelId>, t: Task)
    requires BaseRows(s.chain, w.rows, s.base) && s.local == w.local && Planned(s, owner, route, t)
    ensures t.action != Nothing
    ensures t.action == Trash ==> Live(w.rows, t.key)
    ensures t.action == Adopt || t.action == Dedupe ==> t.remote.Some?
    ensures t.action == Adopt ==> t.remote.value.md5 == DigestAt(w.local, t.key.path)
    ensures Uploads(t.action) || t.action == Adopt ==> t.key.path in w.local
  {
  }

  lemma RowWritersDiffer(w: World, s: Snapshot, owner: map<Path, RelId>, route: map<Path, RelId>, i: nat, j: nat)
    requires Planning(w, s, owner, route)
    requires i < j < |w.tasks| && WritesRow(w.tasks[i]) && WritesRow(w.tasks[j])
    ensures w.tasks[i].key.path != w.tasks[j].key.path
  {
    assert w.tasks[i] != w.tasks[j];
    assert Planned(s, owner, route, w.tasks[i]) && Planned(s, owner, route, w.tasks[j]);
  }

  lemma DedupeIsUntracked(w: World, s: Snapshot, owner: map<Path, RelId>, route: map<Path, RelId>, t: Task)
    requires RowsOk(w.drive, w.rows) && SnapshotOf(s, w.local, w.drive, w.rows)
    requires Planned(s, owner, route, t) && t.action == Dedupe
    ensures t.remote.Some? && forall k :: k in w.rows ==> w.rows[k].remoteId != t.remote.value.id
  {
    var n :| Redundant(ListedAt(s.listing, t.key), Some(BaseOf(s.base[t.key])), n)
      && t == DedupeTask(t.key, ListedAt(s.listing, t.key)[n]);
    RedundantIsUntracked(w, s, t.key, n);
  }

  lemma TargetTracked(w: World, s: Snapshot, owner: map<Path, RelId>, route: map<Path, RelId>, i: nat, k: Key)
    requires Planning(w, s, owner, route)
    requires i < |w.tasks| && k in w.rows && w.tasks[i].action != Trash
    ensures Target(w.rows, w.tasks[i]) == Some(w.rows[k].remoteId) ==> WritesRow(w.tasks[i]) && k == w.tasks[i].key
  {
    var t := w.tasks[i];
    PlannedTaskSound(w, s, owner, route, i);
    if t.action == Dedupe { DedupeIsUntracked(w, s, owner, route, t); }
  }

  /** At one position, a dedupe's object is neither another dedupe's nor the picked one. */
  lemma DedupeDiffers(drive: Drive, s: Snapshot, owner: map<Path, RelId>, route: map<Path, RelId>, t: Task, u: Task)
    requires ListingOf(s.chain, drive, s.listing)
    requires Planned(s, owner, route, t) && Planned(s, owner, route, u) && t != u && t.key == u.key
    requires t.action == Dedupe
    ensures t.remote.Some? && (u.remote.Some? ==> t.remote.value.id != u.remote.value.id)
  {
    var k := t.key;
    var cands, base := ListedAt(s.listing, k), Some(BaseOf(s.base[k]));
    var n :| Redundant(cands, base, n) && t == DedupeTask(k, cands[n]);
    if u.action == Dedupe {
      var m :| Redundant(cands, base, m) && u == DedupeTask(k, cands[m]);
      ListedOnce(drive, s, k, if cands[n].id == cands[m].id then n else m, m);
    } else if u.remote.Some? {
      var m := PickIndex(cands, base);
      ListedOnce(drive, s, k, if cands[n].id == cands[m].id then n else m, m);
    }
  }

  lemma DedupeTargetsDiffer(w: World, s: Snapshot, owner: map<Path, RelId>, route: map<Path, RelId>, i: nat, j: nat)
    requires Planning(w, s, owner, route)
    requires i < |w.tasks| && j < |w.tasks| && i != j
    requires w.tasks[i].action == Dedupe && w.tasks[j].action != Trash
    requires w.tasks[i].key == w.tasks[j].key
    ensures Target(w.rows, w.tasks[i]) != Target(w.rows, w.tasks[j])
  {
    assert w.tasks[i] != w.tasks[j];
    DedupeDiffers(w.drive, s, owner, route, w.tasks[i], w.tasks[j]);
  }

  lemma TargetsDiffer(w: World, s: Snapshot, owner: map<Path, RelId>, route: map<Path, RelId>, i: nat, j: nat)
    requires Planning(w, s, owner, route)
    requires i < |w.tasks| && j < |w.tasks| && i != j && Target(w.rows, w.tasks[i]).Some?
    ensures Target(w.rows, w.tasks[i]) != Target(w.rows, w.tasks[j])
  {
    var t, u := w.tasks[i], w.tasks[j];
    PlannedTaskSound(w, s, owner, route, i);
    PlannedTaskSound(w, s, owner, route, j);
    if WritesRow(t) && WritesRow(u) {
      RowWritersDiffer(w, s, owner, route, if i < j then i else j, if i < j then j else i);
    }
    if t.action == Trash && u.action != Trash {
      TargetTracked(w, s, owner, route, j, t.key);
    } else if u.action == Trash && t.action != Trash {
      TargetTracked(w, s, owner, route, i, u.key);
    } else if t.action != Trash && t.key == u.key {
      if t.action == Dedupe { DedupeTargetsDiffer(w, s, owner, route, i, j); }
      if u.action == Dedupe { DedupeTargetsDiffer(w, s, owner, route, j, i); }
    }
  }

  /** Disjointness of one pass's tasks, for every plan the merge can produce. */
  lemma PlanIsSound(w: World, s: Snapshot, owner: map<Path, RelId>, route: map<Path, RelId>)
    requires Planning(w, s, owner, route)
    ensures Sound(w)
  {
    forall i ensures TaskSoundAt(w, i) {
      if 0 <= i < |w.tasks| { PlannedTaskSound(w, s, owner, route, i); }
    }
    forall i, j ensures Apart(w, i, j) {
      if 0 <= i < |w.tasks| && 0 <= j < |w.tasks| && i != j {
        if WritesRow(w.tasks[i]) && WritesRow(w.tasks[j]) {
          RowWritersDiffer(w, s, owner, route, if i < j then i else j, if i < j then j else i);
        }
        if Target(w.rows, w.tasks[i]).Some? { TargetsDiffer(w, s, owner, route, i, j); }
      }
    }
    forall i, k ensures TargetOwn(w, i, k) {
      if 0 <= i < |w.tasks| && k in w.rows && w.tasks[i].action != Trash { TargetTracked(w, s, owner, route, i, k); }
    }
  }
}
