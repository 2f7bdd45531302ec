/** Convergence: with nothing changing outside, passes settle. */
module Convergence {
  import opened SyncTypes
  import opened Merging
  import opened PlanSpec
  import opened PassMachine
  import opened PlanSound
  import opened Schedule
  import opened Runs
  import opened Stamps
  import opened MirrorLaw
  import opened Ownership
  import opened OwnerLives

  /** The next pass starts from the stores the last one left, with a fresh plan. */
  ghost predicate Follows(w: World, v0: World) {
    v0.local == w.local && v0.drive == w.drive && v0.rows == w.rows
  }

  /** The merge of the position sees agreement: the local file has the row's stamp, and the row's
      object is listed there with the row's hash. */
  ghost predicate Agrees(w: World, k: Key) {
    && SameStamp(w.local, w.rows, k)
    && var m := w.rows[k];
       && m.remoteId in w.drive.objs && w.drive.objs[m.remoteId].place == At(k)
       && w.drive.objs[m.remoteId].content.Binary? && DigestOf(w.drive.objs[m.remoteId].content) == m.remoteMd5
  }

  /** Agreement is being in sync, or having a blind merge. */
  lemma AgreesExactlyWhen(w: World, k: Key)
    requires RowsOk(w.drive, w.rows)
    ensures Agrees(w, k) <==> InSync(w, k) || Blind(w, k)
    ensures InSync(w, k) ==> !Blind(w, k)
  {
    if Blind(w, k) { assert TrackedOk(w.drive.objs[w.rows[k].remoteId], w.rows, k); }
  }

  /** Every live row of the chain agrees with its local file and its object, and every local file
      has such a row. */
  ghost predicate Settled(chain: seq<FolderTarget>, w: World) {
    && (forall k :: OwnsIn(chain, w.rows, k) ==> Agrees(w, k))
    && (forall p :: p in w.local ==> HasOwner(chain, w.rows, p))
  }

  /** And no merge is blind. */
  ghost predicate Mirrored(chain: seq<FolderTarget>, w: World) {
    Settled(chain, w) && forall k :: OwnsIn(chain, w.rows, k) ==> InSync(w, k)
  }

  ghost predicate HasOwner(chain: seq<FolderTarget>, rows: Rows, p: Path) {
    exists k: Key :: k.path == p && OwnsIn(chain, rows, k)
  }

  lemma AgreedMergesToNothing(w: World, s: Snapshot, k: Key)
    requires SnapshotOf(s, w.local, w.drive, w.rows) && InChain(s.chain, k.rel) && Agrees(w, k)
    ensures k in s.base && OwnedTask(s, k).action == Nothing
  {
    var m := w.rows[k];
    var cands := ListedAt(s.listing, k);
    assert Holds(cands, m.remoteId);
    ListedIsThere(w, s, k, PickIndex(cands, Some(BaseOf(m))));
  }

  lemma HomeInLonger(w0: World, s: Snapshot, owner: map<Path, RelId>, route: map<Path, RelId>,
                     longer: seq<FolderTarget>, p: Path)
    requires SnapshotOf(s, w0.local, w0.drive, w0.rows) && OwnerMap(s.base, owner) && Grown(s.chain, longer, w0, route)
    requires p in s.local && !Deferred(s, owner, route, p)
    ensures InChain(longer, Home(s, owner, route, p).rel)
  {
    var k := Home(s, owner, route, p);
    if p in owner || FindTwin(s.chain, s.listing, p).Some? {
      InLonger(s.chain, longer, k.rel);
    }
  }

  lemma LiveIsHome(w0: World, s: Snapshot, owner: map<Path, RelId>, route: map<Path, RelId>, w: World,
                   longer: seq<FolderTarget>, k: Key)
    requires Completed(w0, s, owner, route, w) && Grown(s.chain, longer, w0, route) && SingleOwners(s.chain, w0.rows)
    requires OwnsIn(longer, w.rows, k)
    ensures k.path in w0.local
  {
    var i := LiveRowAtOwner(w0, s, owner, route, w, longer, k);
    if k.path in owner && k.path !in w0.local {
      DeletionsReachTheTank(w0, s, owner, route, w, k.path);
    }
  }

  lemma HomeOwns(w0: World, s: Snapshot, owner: map<Path, RelId>, route: map<Path, RelId>, w: World,
                 longer: seq<FolderTarget>, p: Path) returns (k: Key)
    requires Completed(w0, s, owner, route, w) && Grown(s.chain, longer, w0, route)
    requires p in w0.local && !Deferred(s, owner, route, p)
    ensures k.path == p && OwnsIn(longer, w.rows, k) && Agrees(w, k)
    ensures InSync(w, k) <==> !Blind(w0, k)
  {
    k := Home(s, owner, route, p);
    HomeInSync(w0, s, owner, route, w, p);
    HomeInLonger(w0, s, owner, route, longer, p);
    if Unseen(w0, s, owner, route, p) { BlindAgrees(w0, s, owner, route, w, k); }
    if p !in owner { NewHomeIsUnowned(w0, s, owner, route, longer, p); }
  }

  /** A blind merge does nothing, and what it took for agreement stays as it is. */
  lemma BlindAgrees(w0: World, s: Snapshot, owner: map<Path, RelId>, route: map<Path, RelId>, w: World, k: Key)
    requires Planning(w0, s, owner, route) && Mirrors(w0, w)
    requires k in s.base && k.path in owner && owner[k.path] == k.rel && Blind(w0, k)
    ensures Agrees(w, k)
  {
    BlindDoesNothing(w0, s, k);
    NothingIsSeen(w0, s, k);
    NothingIsDone(w0, s, owner, route, w, k);
  }

  lemma NewHomeIsUnowned(w0: World, s: Snapshot, owner: map<Path, RelId>, route: map<Path, RelId>,
                       longer: seq<FolderTarget>, p: Path)
    requires SnapshotOf(s, w0.local, w0.drive, w0.rows) && OwnerMap(s.base, owner) && Grown(s.chain, longer, w0, route)
    requires p in s.local && p !in owner && !Deferred(s, owner, route, p)
    ensures !Live(w0.rows, Home(s, owner, route, p))
  {
    var k := Home(s, owner, route, p);
    HomeInLonger(w0, s, owner, route, longer, p);
    assert k !in s.base;
  }

  /** A completed pass from single ownership, without deferrals, leaves the chain settled, and
      every row in sync exactly unless its merge was blind. */
  lemma PassSettles(w0: World, s: Snapshot, owner: map<Path, RelId>, route: map<Path, RelId>, w: World,
                    longer: seq<FolderTarget>)
    requires Completed(w0, s, owner, route, w)
    requires Grown(s.chain, longer, w0, route) && SingleOwners(s.chain, w0.rows)
    requires forall p :: !Deferred(s, owner, route, p)
    ensures Settled(longer, w)
    ensures forall k :: OwnsIn(longer, w.rows, k) ==> (InSync(w, k) <==> !Blind(w0, k))
  {
    forall p | p in w.local ensures HasOwner(longer, w.rows, p) {
      var k := HomeOwns(w0, s, owner, route, w, longer, p);
    }
    forall k | OwnsIn(longer, w.rows, k) ensures Agrees(w, k) && (InSync(w, k) <==> !Blind(w0, k)) {
      LiveIsHome(w0, s, owner, route, w, longer, k);
      var l := HomeOwns(w0, s, owner, route, w, longer, k.path);
      LiveRowsAgree(w0, s, owner, route, w, longer, k, l);
    }
  }

  lemma LocalIsOwned(w: World, v0: World, s: Snapshot, owner: map<Path, RelId>, p: Path)
    requires Settled(s.chain, w) && Follows(w, v0)
    requires SnapshotOf(s, v0.local, v0.drive, v0.rows) && OwnerMap(s.base, owner)
    ensures p in v0.local ==> p in owner
  {
    if p in v0.local {
      var k: Key :| k.path == p && OwnsIn(s.chain, w.rows, k);
      assert k in s.base;
    }
  }

  /** From a settled state, a plan is nothing but sweeps of redundant copies. */
  lemma SettledPlansOnlyDedupes(w: World, v0: World, s: Snapshot, owner: map<Path, RelId>, route: map<Path, RelId>, i: nat)
    requires Settled(s.chain, w) && Follows(w, v0) && Planning(v0, s, owner, route) && i < |v0.tasks|
    ensures v0.tasks[i].action == Dedupe
    ensures Agrees(w, v0.tasks[i].key) && v0.tasks[i].key.path in owner
  {
    var t := v0.tasks[i];
    assert Planned(s, owner, route, t);
    LocalIsOwned(w, v0, s, owner, t.key.path);
    assert OwnsIn(s.chain, w.rows, t.key);
    AgreedMergesToNothing(v0, s, t.key);
  }

  lemma DedupesKeepRows(w: World, v0: World, s: Snapshot, owner: map<Path, RelId>, route: map<Path, RelId>, v: World)
    requires Settled(s.chain, w) && Follows(w, v0) && Completed(v0, s, owner, route, v)
    ensures v.rows == v0.rows
  {
    forall i | 0 <= i < |v0.tasks| ensures v0.tasks[i].action == Dedupe {
      SettledPlansOnlyDedupes(w, v0, s, owner, route, i);
    }
    forall k ensures SameRow(v0.rows, v.rows, k) { assert Unwritten(v, k); }
    SameRows(v0.rows, v.rows);
  }

  lemma DedupesSpareTracked(w: World, v0: World, s: Snapshot, owner: map<Path, RelId>, route: map<Path, RelId>, v: World, k: Key)
    requires Settled(s.chain, w) && Follows(w, v0) && Completed(v0, s, owner, route, v)
    requires OwnsIn(s.chain, v0.rows, k) && v.rows == v0.rows
    ensures Agrees(v, k) && (InSync(v, k) <==> InSync(v0, k))
  {
    assert Agrees(v0, k);
    forall j | 0 <= j < |v.tasks| ensures Target(v0.rows, v.tasks[j]) != Some(v.rows[k].remoteId) {
      SettledPlansOnlyDedupes(w, v0, s, owner, route, j);
      assert TargetOwn(v0, j, k);
    }
    Untargeted(v0, v, v.rows[k].remoteId);
  }

  /** Dedupes leave a settled chain settled: they never move what a row tracks. */
  lemma DedupesKeepSettled(w: World, v0: World, s: Snapshot, owner: map<Path, RelId>, route: map<Path, RelId>, v: World)
    requires Settled(s.chain, w) && Follows(w, v0) && Completed(v0, s, owner, route, v)
    ensures Settled(s.chain, v) && v.rows == v0.rows
    ensures forall k :: OwnsIn(s.chain, v.rows, k) ==> (InSync(v, k) <==> InSync(v0, k))
  {
    DedupesKeepRows(w, v0, s, owner, route, v);
    forall k | OwnsIn(s.chain, v.rows, k) ensures Agrees(v, k) && (InSync(v, k) <==> InSync(v0, k)) {
      DedupesSpareTracked(w, v0, s, owner, route, v, k);
    }
    forall p | p in v.local ensures HasOwner(s.chain, v.rows, p) {
      assert HasOwner(s.chain, w.rows, p);
    }
  }

  /** No other object at the position has the content the row records. */
  ghost predicate NoCopies(w: World, k: Key) {
    forall id :: !CopyAt(w, k, id)
  }

  ghost predicate CopyAt(w: World, k: Key, id: ObjId) {
    && k in w.rows && id in w.drive.objs && id != w.rows[k].remoteId
    && w.drive.objs[id].place == At(k) && DigestOf(w.drive.objs[id].content) == w.rows[k].remoteMd5
  }

  /** Where the pass found agreement, it picked the row's own object. */
  lemma AgreedIsPicked(v0: World, s: Snapshot, k: Key)
    requires SnapshotOf(s, v0.local, v0.drive, v0.rows) && InChain(s.chain, k.rel) && Agrees(v0, k)
    ensures k in s.base && s.base[k] == v0.rows[k]
    ensures var cands, base := ListedAt(s.listing, k), Some(BaseOf(v0.rows[k]));
      cands != [] && cands[PickIndex(cands, base)].id == v0.rows[k].remoteId
      && cands[PickIndex(cands, base)].md5 == v0.rows[k].remoteMd5
  {
    var cands := ListedAt(s.listing, k);
    assert Holds(cands, v0.rows[k].remoteId);
    ListedIsThere(v0, s, k, PickIndex(cands, Some(BaseOf(v0.rows[k]))));
  }

  /** The plan sweeps a copy exactly where there is one. */
  lemma CopyIsPlanned(v0: World, s: Snapshot, owner: map<Path, RelId>, route: map<Path, RelId>, k: Key, id: ObjId)
    returns (i: nat)
    requires Planning(v0, s, owner, route) && InChain(s.chain, k.rel) && Agrees(v0, k)
    requires k.path in owner && owner[k.path] == k.rel && CopyAt(v0, k, id)
    ensures i < |v0.tasks| && v0.tasks[i].action == Dedupe && Target(v0.rows, v0.tasks[i]) == Some(id)
  {
    var cands, base := ListedAt(s.listing, k), Some(BaseOf(v0.rows[k]));
    AgreedIsPicked(v0, s, k);
    assert Holds(cands, id);
    var n :| 0 <= n < |cands| && cands[n].id == id;
    ListedIsThere(v0, s, k, n);
    assert Redundant(cands, base, n);
    var t := DedupeTask(k, cands[n]);
    assert Planned(s, owner, route, t);
    i :| 0 <= i < |v0.tasks| && v0.tasks[i] == t;
  }

  lemma PlannedIsCopy(v0: World, s: Snapshot, owner: map<Path, RelId>, route: map<Path, RelId>, i: nat)
    requires Planning(v0, s, owner, route) && i < |v0.tasks| && v0.tasks[i].action == Dedupe
    requires Agrees(v0, v0.tasks[i].key)
    ensures !NoCopies(v0, v0.tasks[i].key)
  {
    var t := v0.tasks[i];
    var k := t.key;
    assert Planned(s, owner, route, t);
    AgreedIsPicked(v0, s, k);
    var cands, base := ListedAt(s.listing, k), Some(BaseOf(s.base[k]));
    var n :| Redundant(cands, base, n) && t == DedupeTask(k, cands[n]);
    ListedIsThere(v0, s, k, n);
    RedundantIsUntracked(v0, s, k, n);
    assert CopyAt(v0, k, cands[n].id);
  }

  lemma DoneDedupeTanks(v0: World, v: World, i: nat, id: ObjId)
    requires Mirrors(v0, v) && AllDone(v) && i < |v.tasks|
    requires v.tasks[i].action == Dedupe && Target(v0.rows, v.tasks[i]) == Some(id)
    ensures id in v.drive.objs && v.drive.objs[id].place.Tank?
  {
    assert AnswerOk(v0, v.tasks[i], v.phase[i].rf);
  }

  /** What is listed after a pass of dedupes was listed, as it is, before it. */
  lemma ListedBefore(v0: World, v: World, id: ObjId)
    requires Mirrors(v0, v) && (forall i :: 0 <= i < |v.tasks| ==> v.tasks[i].action == Dedupe)
    requires id in v.drive.objs && v.drive.objs[id].place.At?
    ensures SameObject(v0.drive, v.drive, id)
  {
    forall i ensures !Touches(v, i, id) {
      if 0 <= i < |v.tasks| && !v.phase[i].Waiting? { assert AnswerOk(v0, v.tasks[i], v.phase[i].rf); }
    }
    assert Untouched(v, id);
  }

  /** A completed pass of dedupes leaves no copies at the positions it planned for. */
  lemma DedupesLeaveNoCopies(v0: World, s: Snapshot, owner: map<Path, RelId>, route: map<Path, RelId>, v: World, k: Key)
    requires Completed(v0, s, owner, route, v) && v.rows == v0.rows
    requires forall i :: 0 <= i < |v.tasks| ==> v.tasks[i].action == Dedupe
    requires InChain(s.chain, k.rel) && Agrees(v0, k) && k.path in owner && owner[k.path] == k.rel
    ensures NoCopies(v, k)
  {
    forall id ensures !CopyAt(v, k, id) {
      if id in v.drive.objs && v.drive.objs[id].place == At(k) {
        ListedBefore(v0, v, id);
        if CopyAt(v0, k, id) {
          var i := CopyIsPlanned(v0, s, owner, route, k, id);
          DoneDedupeTanks(v0, v, i, id);
        }
      }
    }
  }

  /** A settled chain without copies has nothing left to do. */
  lemma NothingToDo(w: World, v0: World, s: Snapshot, owner: map<Path, RelId>, route: map<Path, RelId>)
    requires Settled(s.chain, w) && Follows(w, v0) && Planning(v0, s, owner, route)
    requires forall k :: OwnsIn(s.chain, w.rows, k) ==> NoCopies(w, k)
    ensures v0.tasks == []
  {
    if |v0.tasks| > 0 {
      TaskMeansCopy(w, v0, s, owner, route, 0);
    }
  }

  lemma TaskMeansCopy(w: World, v0: World, s: Snapshot, owner: map<Path, RelId>, route: map<Path, RelId>, i: nat)
    requires Settled(s.chain, w) && Follows(w, v0) && Planning(v0, s, owner, route) && i < |v0.tasks|
    ensures OwnsIn(s.chain, w.rows, v0.tasks[i].key) && !NoCopies(w, v0.tasks[i].key)
  {
    SettledPlansOnlyDedupes(w, v0, s, owner, route, i);
    PlannedIsCopy(v0, s, owner, route, i);
    assert Planned(s, owner, route, v0.tasks[i]);
    var id :| CopyAt(v0, v0.tasks[i].key, id);
    assert CopyAt(w, v0.tasks[i].key, id);
  }

  lemma SoleOwnerIsOwner(s: Snapshot, w: World, owner: map<Path, RelId>, k: Key)
    requires SnapshotOf(s, w.local, w.drive, w.rows) && OwnerMap(s.base, owner)
    requires SingleOwners(s.chain, w.rows) && OwnsIn(s.chain, w.rows, k)
    ensures k.path in owner && owner[k.path] == k.rel
  {
    assert k in s.base;
    assert OwnsIn(s.chain, w.rows, Key(owner[k.path], k.path));
  }

  /** Convergence. With nothing changing outside and every task succeeding, after any
      completed pass without deferrals the next one contains only dedupes and the one after
      that contains nothing; what passes then leave out of sync is exactly what the first
      one's merges were blind to. */
  lemma SettlesInThree(w0: World, s0: Snapshot, owner0: map<Path, RelId>, route0: map<Path, RelId>, w: World,
                       u0: World, s1: Snapshot, owner1: map<Path, RelId>, route1: map<Path, RelId>, u: World,
                       v0: World, s2: Snapshot, owner2: map<Path, RelId>, route2: map<Path, RelId>)
    requires Completed(w0, s0, owner0, route0, w)
    requires SingleOwners(s0.chain, w0.rows) && (forall p :: !Deferred(s0, owner0, route0, p))
    requires Grown(s0.chain, s1.chain, w0, route0)
    requires Follows(w, u0) && Completed(u0, s1, owner1, route1, u)
    requires Follows(u, v0) && Planning(v0, s2, owner2, route2) && s2.chain == s1.chain
    ensures forall i :: 0 <= i < |u0.tasks| ==> u0.tasks[i].action == Dedupe
    ensures v0.tasks == []
    ensures forall k :: OwnsIn(s1.chain, v0.rows, k) ==> (InSync(v0, k) <==> !Blind(w0, k))
  {
    PassSettles(w0, s0, owner0, route0, w, s1.chain);
    OwnershipStaysSingle(w0, s0, owner0, route0, w, s1.chain);
    SettlesInTwo(w, u0, s1, owner1, route1, u, v0, s2, owner2, route2);
    forall k | OwnsIn(s1.chain, v0.rows, k) ensures InSync(v0, k) <==> !Blind(w0, k) {
      SyncStays(w, u0, s1, owner1, route1, u, v0, k);
    }
  }

  lemma SyncStays(w: World, u0: World, s1: Snapshot, owner1: map<Path, RelId>, route1: map<Path, RelId>, u: World,
                  v0: World, k: Key)
    requires Settled(s1.chain, w) && Follows(w, u0) && Completed(u0, s1, owner1, route1, u) && Follows(u, v0)
    requires OwnsIn(s1.chain, v0.rows, k)
    ensures OwnsIn(s1.chain, w.rows, k) && (InSync(v0, k) <==> InSync(w, k))
  {
    DedupesKeepSettled(w, u0, s1, owner1, route1, u);
  }

  lemma SettlesInTwo(w: World, u0: World, s1: Snapshot, owner1: map<Path, RelId>, route1: map<Path, RelId>, u: World,
                     v0: World, s2: Snapshot, owner2: map<Path, RelId>, route2: map<Path, RelId>)
    requires Settled(s1.chain, w) && SingleOwners(s1.chain, w.rows)
    requires Follows(w, u0) && Completed(u0, s1, owner1, route1, u)
    requires Follows(u, v0) && Planning(v0, s2, owner2, route2) && s2.chain == s1.chain
    ensures forall i :: 0 <= i < |u0.tasks| ==> u0.tasks[i].action == Dedupe
    ensures v0.tasks == []
  {
    forall i | 0 <= i < |u0.tasks| ensures u0.tasks[i].action == Dedupe {
      SettledPlansOnlyDedupes(w, u0, s1, owner1, route1, i);
    }
    DedupesKeepSettled(w, u0, s1, owner1, route1, u);
    forall k | OwnsIn(s1.chain, u.rows, k) ensures NoCopies(u, k) {
      assert OwnsIn(s1.chain, w.rows, k);
      SoleOwnerIsOwner(s1, u0, owner1, k);
      DedupesLeaveNoCopies(u0, s1, owner1, route1, u, k);
    }
    NothingToDo(u, v0, s2, owner2, route2);
  }

  // ---- one object per position ----

  ghost predicate SamePosition(d: Drive, a: ObjId, b: ObjId) {
    a in d.objs && b in d.objs && d.objs[a].place.At? && d.objs[a].place == d.objs[b].place
  }

  ghost predicate OnePerPosition(chain: seq<FolderTarget>, d: Drive) {
    forall a, b :: SamePosition(d, a, b) && InChain(chain, d.objs[a].place.key.rel) ==> a == b
  }

  /** Where a listed object comes from: it was listed there when the pass started, or the
      pass created it for a path that had no candidate at that position. */
  lemma ListedOrigin(w0: World, s: Snapshot, owner: map<Path, RelId>, route: map<Path, RelId>, w: World,
                     longer: seq<FolderTarget>, id: ObjId) returns (i: int)
    requires Started(w0, s, owner, route, w) && Grown(s.chain, longer, w0, route)
    requires id in w.drive.objs && w.drive.objs[id].place.At? && InChain(longer, w.drive.objs[id].place.key.rel)
    ensures i == -1 ==> id in w0.drive.objs && w0.drive.objs[id].place == w.drive.objs[id].place
    ensures i != -1 ==>
              && 0 <= i < |w.tasks| && Creates(w.tasks[i]) && !w.phase[i].Waiting? && w.phase[i].rf.id == id
              && w.tasks[i].key == w.drive.objs[id].place.key && id !in w0.drive.used
              && ListedAt(s.listing, w.tasks[i].key) == []
  {
    if j :| Touches(w, j, id) {
      assert AnswerOk(w0, w.tasks[j], w.phase[j].rf) && TaskSoundAt(w0, j);
      assert Planned(s, owner, route, w.tasks[j]);
      i := if Creates(w.tasks[j]) then j else -1;
    } else {
      assert Untouched(w, id);
      assert SameObject(w0.drive, w.drive, id);
      i := -1;
    }
  }

  lemma EmptyPosition(w0: World, s: Snapshot, longer: seq<FolderTarget>, route: map<Path, RelId>, k: Key, id: ObjId)
    requires SnapshotOf(s, w0.local, w0.drive, w0.rows) && Grown(s.chain, longer, w0, route)
    requires InChain(longer, k.rel) && ListedAt(s.listing, k) == [] && id in w0.drive.objs
    ensures w0.drive.objs[id].place != At(k)
  {
    assert !Holds(ListedAt(s.listing, k), id);
  }

  /** A pass, complete or cut short, puts no second object where there was at most one, and
      no object at all beside one that was already there. */
  lemma NoSecondObject(w0: World, s: Snapshot, owner: map<Path, RelId>, route: map<Path, RelId>, w: World,
                       longer: seq<FolderTarget>, a: ObjId, b: ObjId)
    requires Started(w0, s, owner, route, w) && Grown(s.chain, longer, w0, route)
    requires SamePosition(w.drive, a, b) && a != b && InChain(longer, w.drive.objs[a].place.key.rel)
    ensures SamePosition(w0.drive, a, b) && w0.drive.objs[a].place == w.drive.objs[a].place
  {
    var k := w.drive.objs[a].place.key;
    var i := ListedOrigin(w0, s, owner, route, w, longer, a);
    var j := ListedOrigin(w0, s, owner, route, w, longer, b);
    if i != -1 && j != -1 {
      OneWriter(w0, s, owner, route, i, j);
    } else if i != -1 {
      EmptyPosition(w0, s, longer, route, k, b);
    } else if j != -1 {
      EmptyPosition(w0, s, longer, route, k, a);
    }
  }

  /** If no position has several candidates, the second pass is already empty. */
  lemma SettlesInTwoWithoutDuplicates(
      w0: World, s0: Snapshot, owner0: map<Path, RelId>, route0: map<Path, RelId>, w: World,
      u0: World, s1: Snapshot, owner1: map<Path, RelId>, route1: map<Path, RelId>)
    requires Completed(w0, s0, owner0, route0, w)
    requires SingleOwners(s0.chain, w0.rows) && (forall p :: !Deferred(s0, owner0, route0, p))
    requires Grown(s0.chain, s1.chain, w0, route0) && OnePerPosition(s1.chain, w0.drive)
    requires Follows(w, u0) && Planning(u0, s1, owner1, route1)
    ensures u0.tasks == []
  {
    PassSettles(w0, s0, owner0, route0, w, s1.chain);
    forall k | OwnsIn(s1.chain, w.rows, k) ensures NoCopies(w, k) {
      forall id ensures !CopyAt(w, k, id) {
        if id in w.drive.objs && w.drive.objs[id].place == At(k) && id != w.rows[k].remoteId {
          assert Agrees(w, k);
          NoSecondObject(w0, s0, owner0, route0, w, s1.chain, id, w.rows[k].remoteId);
        }
      }
    }
    NothingToDo(w, u0, s1, owner1, route1);
  }
  // ---- whole lives ----

  /** A pass that was begun, ran to its end with every task succeeding, and is over. */
  ghost predicate RanThrough(w: World, hold: map<RelId, int>, begin: Event, steps: seq<Step>) {
    && begin.Begin? && Possible(w, hold, begin)
    && var w0 := After(w, hold, begin); Runnable(w0, steps) && AllDone(Run(w0, steps))
  }

  ghost function PassOver(w: World, hold: map<RelId, int>, begin: Event, steps: seq<Step>): World
    requires RanThrough(w, hold, begin, steps)
  {
    After(Run(After(w, hold, begin), steps), hold, Halt)
  }

  lemma RanIsCompleted(w: World, hold: map<RelId, int>, begin: Event, steps: seq<Step>)
    requires Inv(w) && RanThrough(w, hold, begin, steps)
    ensures var w0 := After(w, hold, begin);
      && Completed(w0, begin.s, begin.owner, begin.route, Run(w0, steps))
      && Inv(PassOver(w, hold, begin, steps)) && Idle(PassOver(w, hold, begin, steps))
  {
    var w0 := After(w, hold, begin);
    EventKeeps(w, hold, begin);
    PlanIsSound(w0, begin.s, begin.owner, begin.route);
    PassMirrors(w0, steps);
    RunKeeps(w0, steps);
    EventKeeps(Run(w0, steps), hold, Halt);
  }

  lemma PartIsSingle(part: seq<FolderTarget>, chain: seq<FolderTarget>, rows: Rows)
    requires SingleOwners(chain, rows) && forall rel :: InChain(part, rel) ==> InChain(chain, rel)
    ensures SingleOwners(part, rows)
  {
  }

  /** Convergence over whole lives. Whatever passes, crashes, edits, sweeps, purges and orderly restores
      came before, stale rows included: when the daemon is left alone, and a pass that deferred
      nothing and one more have run through, the next one finds nothing to do. */
  lemma SettlesAfterEveryLife(chain: seq<FolderTarget>, start: World, hold: map<RelId, int>, events: seq<Event>,
                              b0: Event, steps0: seq<Step>, b1: Event, steps1: seq<Step>, b2: Event)
    requires Installed(start) && Lives(start, hold, events) && OrderlyLife(chain, start, hold, events)
    requires RanThrough(Life(start, hold, events), hold, b0, steps0)
    requires forall rel :: InChain(b0.s.chain, rel) ==> InChain(chain, rel)
    requires forall p :: !Deferred(b0.s, b0.owner, b0.route, p)
    requires var w := Life(start, hold, events);
      && b1.Begin? && Grown(b0.s.chain, b1.s.chain, After(w, hold, b0), b0.route)
      && RanThrough(PassOver(w, hold, b0, steps0), hold, b1, steps1)
      && b2.Begin? && b2.s.chain == b1.s.chain
      && Possible(PassOver(PassOver(w, hold, b0, steps0), hold, b1, steps1), hold, b2)
    ensures forall i :: 0 <= i < |b1.tasks| ==> b1.tasks[i].action == Dedupe
    ensures b2.tasks == []
  {
    var w := Life(start, hold, events);
    LifeKeeps(start, hold, events);
    SingleOwnersInEveryLife(chain, start, hold, events);
    PartIsSingle(b0.s.chain, chain, w.rows);
    SettlesWhenAlone(w, hold, b0, steps0, b1, steps1, b2);
  }

  lemma SettlesWhenAlone(w: World, hold: map<RelId, int>, b0: Event, steps0: seq<Step>, b1: Event, steps1: seq<Step>, b2: Event)
    requires Inv(w) && RanThrough(w, hold, b0, steps0) && SingleOwners(b0.s.chain, w.rows)
    requires forall p :: !Deferred(b0.s, b0.owner, b0.route, p)
    requires b1.Begin? && Grown(b0.s.chain, b1.s.chain, After(w, hold, b0), b0.route)
    requires var u := PassOver(w, hold, b0, steps0);
      && RanThrough(u, hold, b1, steps1)
      && b2.Begin? && b2.s.chain == b1.s.chain && Possible(PassOver(u, hold, b1, steps1), hold, b2)
    ensures forall i :: 0 <= i < |b1.tasks| ==> b1.tasks[i].action == Dedupe
    ensures b2.tasks == []
  {
    var u := PassOver(w, hold, b0, steps0);
    var v := PassOver(u, hold, b1, steps1);
    RanIsCompleted(w, hold, b0, steps0);
    RanIsCompleted(u, hold, b1, steps1);
    EventKeeps(v, hold, b2);
    var w0, u0, v0 := After(w, hold, b0), After(u, hold, b1), After(v, hold, b2);
    SettlesInThree(w0, b0.s, b0.owner, b0.route, Run(w0, steps0), u0, b1.s, b1.owner, b1.route, Run(u0, steps1),
                   v0, b2.s, b2.owner, b2.route);
  }
}
