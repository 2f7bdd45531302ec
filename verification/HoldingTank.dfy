/** core/retention/restore.go and the daemon's PurgeTrash: ways out of the holding tank, and
    the guarantee that a deletion can be undone for its whole holding period. */
module HoldingTank {
  import opened SyncTypes
  import opened Merging
  import opened PlanSpec
  import opened PassMachine
  import opened PlanSound
  import opened Schedule
  import opened Runs
  import opened MirrorLaw
  import opened Convergence
  import opened StateStore
  import opened Retention

  // ---- Restore ----

  datatype RestoreResult = Restored | NoEntry | NotInTank | DownloadFailed | RowFailed | MoveFailed

  /** What Stat meets after the download: the file, nothing as it was removed again, or an error. */
  datatype Sight = Seen | Gone | Hidden

  /** Which of the calls of one restore fail for outside reasons. */
  datatype Trouble = Trouble(download: bool, sight: Sight, row: bool, move: bool)

  /** The file the download writes; Google-native formats have no content to download. */
  function Downloaded(c: Content, at: Time): LocalFile
    requires c.Binary?
  {
    LocalFile(c.bytes, at)
  }

  class Restorer {
    const store: Store
    const cloud: Cloud
    var local: LocalTree

    constructor (s: Store, c: Cloud, l: LocalTree)
      ensures store == s && cloud == c && local == l
    {
      store, cloud, local := s, c, l;
    }

    function State(): World
      reads this, store, cloud
    {
      World(local, cloud.drive, store.rows, [], [])
    }

    method Download(id: ObjId, p: Path, at: Time, down: bool) returns (ok: bool)
      modifies this`local
      ensures ok <==> !down && id in cloud.drive.objs && cloud.drive.objs[id].content.Binary?
      ensures ok ==> local == old(local)[p := Downloaded(cloud.drive.objs[id].content, at)]
      ensures !ok ==> local == old(local)
    {
      if down || id !in cloud.drive.objs { return false; }
      match cloud.drive.objs[id].content {
        case Native(_) => return false;
        case Binary(_) =>
          local := local[p := Downloaded(cloud.drive.objs[id].content, at)];
          return true;
      }
    }

    method MoveToFolder(id: ObjId, place: Place, down: bool) returns (ok: bool)
      modifies cloud`drive
      ensures ok <==> !down && id in old(cloud.drive).objs
      ensures cloud.drive == if ok then old(cloud.drive).(objs := old(cloud.drive).objs[id := Moved(old(cloud.drive).objs[id], place)])
                             else old(cloud.drive)
    {
      if down || id !in cloud.drive.objs { return false; }
      cloud.drive := cloud.drive.(objs := cloud.drive.objs[id := Moved(cloud.drive.objs[id], place)]);
      return true;
    }

    /** The live row of the file as Stat meets it. */
    method StampAgain(k: Key, m: FileMeta, at: Time, sight: Sight) returns (n: FileMeta)
      modifies this`local
      ensures local == if sight.Gone? then old(local) - {k.path} else old(local)
      ensures n == ReOwned(local, k, m, at, sight.Seen?)
    {
      if sight.Gone? { local := local - {k.path}; }
      n := m.(status := Synced, deletedAt := None);
      if sight.Seen? && k.path in local {
        n := n.(localMtime := local[k.path].mtime, localSize := |local[k.path].bytes|);
      } else {
        n := n.(localMtime := at);
      }
    }

    /** Restore of one entry at time at. The result says how far it got; what had been done
        before a failure stays done. */
    method Restore(k: Key, at: Time, t: Trouble) returns (r: RestoreResult)
      modifies this`local, store`rows, cloud`drive
      ensures State() == RestoreOutcome(old(State()), k, at, t.sight, r)
      ensures r == NoEntry <==> k !in old(store.rows)
      ensures r == NotInTank <==> k in old(store.rows) && old(store.rows)[k].status != Trashed
      // The first failing call, if there is one, decides the result.
      ensures r == Restored <==> CanRestore(old(State()), k) && !t.download && !t.row && !t.move
      ensures r == RowFailed <==> CanRestore(old(State()), k) && !t.download && t.row
      ensures r == MoveFailed <==> CanRestore(old(State()), k) && !t.download && !t.row && t.move
    {
      var metas := store.FilesForRelation(k.rel);
      if k !in metas { return NoEntry; }
      var m := metas[k];
      if m.status != Trashed { return NotInTank; }
      var ok := Download(m.remoteId, k.path, at, t.download);
      if !ok { return DownloadFailed; }
      // Re-own the row at once: a pass must not see the restored file as a new one.
      m := StampAgain(k, m, at, t.sight);
      assert t.sight.Gone? ==> local == old(local) - {k.path};
      if t.row { return RowFailed; }
      store.UpsertFile(k, m);
      ok := MoveToFolder(m.remoteId, At(k), t.move);
      return if ok then Restored else MoveFailed;
    }
  }

  /** Restore, when it can succeed, as the events of the daemon's life it consists of. */
  function RestoreSteps(w: World, k: Key, at: Time, sight: Sight): seq<Event>
    requires CanRestore(w, k)
  {
    [Edit(k.path, Downloaded(w.drive.objs[w.rows[k].remoteId].content, at))]
    + (if sight.Gone? then [Remove(k.path)] else []) + [ReOwn(k, at, sight.Seen?), Unbury(k)]
  }

  predicate CanRestore(w: World, k: Key) {
    && k in w.rows && w.rows[k].status == Trashed
    && w.rows[k].remoteId in w.drive.objs && w.drive.objs[w.rows[k].remoteId].content.Binary?
  }

  /** How the stores look after a restore that ended in r. */
  function RestoreOutcome(w: World, k: Key, at: Time, sight: Sight, r: RestoreResult): World {
    if r == NoEntry || r == NotInTank || r == DownloadFailed || !CanRestore(w, k) then w
    else
      var id := w.rows[k].remoteId;
      var w1 := w.(local := if sight.Gone? then w.local - {k.path} else w.local[k.path := Downloaded(w.drive.objs[id].content, at)]);
      if r == RowFailed then w1
      else
        var w2 := w1.(rows := w1.rows[k := ReOwned(w1.local, k, w1.rows[k], at, sight.Seen?)]);
        if r == MoveFailed then w2
        else w2.(drive := w2.drive.(objs := w2.drive.objs[id := Moved(w2.drive.objs[id], At(k))]))
  }

  /** A successful restore is a stretch of the daemon's life. */
  lemma RestoreIsALife(w: World, hold: map<RelId, int>, k: Key, at: Time, sight: Sight)
    requires Idle(w) && CanRestore(w, k)
    requires w.drive.objs[w.rows[k].remoteId].place.Tank?
    ensures var events := RestoreSteps(w, k, at, sight);
      Lives(w, hold, events) && Life(w, hold, events) == RestoreOutcome(w, k, at, sight, Restored)
  {
    var file := Downloaded(w.drive.objs[w.rows[k].remoteId].content, at);
    var w1 := w.(local := if sight.Gone? then w.local - {k.path} else w.local[k.path := file]);
    ReOwnAndUnbury(w1, hold, k, at, sight.Seen?);
    var last := [ReOwn(k, at, sight.Seen?), Unbury(k)];
    if sight.Gone? {
      var edited := w.(local := w.local[k.path := file]);
      assert edited.local - {k.path} == w.local - {k.path};
      LifeStarts(edited, hold, Remove(k.path), last);
      LifeStarts(w, hold, Edit(k.path, file), [Remove(k.path)] + last);
      assert RestoreSteps(w, k, at, sight) == [Edit(k.path, file)] + ([Remove(k.path)] + last);
    } else {
      LifeStarts(w, hold, Edit(k.path, file), last);
      assert RestoreSteps(w, k, at, sight) == [Edit(k.path, file)] + last;
    }
  }

  lemma LifeStarts(w: World, hold: map<RelId, int>, e: Event, rest: seq<Event>)
    requires Possible(w, hold, e) && Lives(After(w, hold, e), hold, rest)
    ensures Lives(w, hold, [e] + rest) && Life(w, hold, [e] + rest) == Life(After(w, hold, e), hold, rest)
  {
    assert ([e] + rest)[0] == e && ([e] + rest)[1..] == rest;
  }

  lemma ReOwnAndUnbury(w: World, hold: map<RelId, int>, k: Key, at: Time, seen: bool)
    requires Idle(w) && k in w.rows && w.rows[k].status == Trashed
    requires w.rows[k].remoteId in w.drive.objs && w.drive.objs[w.rows[k].remoteId].place.Tank?
    ensures var id, owned := w.rows[k].remoteId, w.rows[k := ReOwned(w.local, k, w.rows[k], at, seen)];
      var drive := w.drive.(objs := w.drive.objs[id := Moved(w.drive.objs[id], At(k))]);
      && Lives(w, hold, [ReOwn(k, at, seen), Unbury(k)])
      && Life(w, hold, [ReOwn(k, at, seen), Unbury(k)]) == w.(rows := owned, drive := drive)
  {
    var w1 := After(w, hold, ReOwn(k, at, seen));
    var w2 := After(w1, hold, Unbury(k));
    assert Lives(w2, hold, []) && Life(w2, hold, []) == w2;
    LifeStarts(w1, hold, Unbury(k), []);
    LifeStarts(w, hold, ReOwn(k, at, seen), [Unbury(k)]);
    assert [Unbury(k)] + [] == [Unbury(k)] && [ReOwn(k, at, seen)] + [Unbury(k)] == [ReOwn(k, at, seen), Unbury(k)];
  }

  // ---- deletion is reversible ----

  /** The entry as trashing left it: a TRASHED row, its object in the tank, the path gone and
      no task under way for it. */
  ghost predicate Entombed(w: World, k: Key, m: FileMeta, o: Obj) {
    && Inv(w)
    && k in w.rows && w.rows[k] == m && m.status == Trashed && m.deletedAt.Some?
    && m.remoteId in w.drive.objs && w.drive.objs[m.remoteId] == o && o.place.Tank?
    && k.path !in w.local
    && forall i :: !PendingAt(w, i, k)
  }

  /** A completed trashing entombs the entry, with the object's content as the pass found it. */
  lemma TrashingEntombs(w0: World, s: Snapshot, owner: map<Path, RelId>, route: map<Path, RelId>, steps: seq<Step>, p: Path)
    requires Planning(w0, s, owner, route) && Runnable(w0, steps)
    requires p in owner && p !in w0.local && PathDone(Run(w0, steps), p)
    ensures var k, w := Key(owner[p], p), After(Run(w0, steps), map[], Halt);
      && k in w.rows && w.rows[k].remoteId in w.drive.objs && w.rows[k].remoteId in w0.drive.objs
      && w.rows[k] == w0.rows[k].(status := Trashed, deletedAt := w.rows[k].deletedAt)
      && w.drive.objs[w.rows[k].remoteId].content == w0.drive.objs[w.rows[k].remoteId].content
      && Entombed(w, k, w.rows[k], w.drive.objs[w.rows[k].remoteId])
  {
    PlanIsSound(w0, s, owner, route);
    PassMirrors(w0, steps);
    PassKeepsRows(w0, s, owner, route, steps);
    DeletionsReachTheTank(w0, s, owner, route, Run(w0, steps), p);
    EventKeeps(Run(w0, steps), map[], Halt);
  }

  predicate PendingAt(w: World, i: int, k: Key) {
    0 <= i < |w.tasks| && i < |w.phase| && w.tasks[i].key == k && WritesRow(w.tasks[i]) && !w.phase[i].Done?
  }

  /** Nothing happens to the entry itself: the path is not re-created, the entry is neither
      purged nor restored nor forgotten with its folder, and the holding period is not over. */
  predicate Undisturbed(e: Event, k: Key, m: FileMeta, hold: map<RelId, int>) {
    match e
    case Edit(p, _) => p != k.path
    case Purge(l, _) => l != k
    case ReOwn(l, _, _) => l != k
    case Forget(ks) => k !in ks
    case Sweep(l, now, _) =>
      l == k && k.rel in hold && m.deletedAt.Some? ==> now < m.deletedAt.value + hold[k.rel] * 86_400 * 1_000_000_000
    case _ => true
  }

  lemma CallSparesTomb(w: World, k: Key, m: FileMeta, o: Obj, i: nat, id: ObjId)
    requires Entombed(w, k, m, o) && CanCall(w, i, id)
    ensures CallsDrive(w.tasks[i]) ==> id != m.remoteId
    ensures Entombed(Apply(w, Call(i, id)), k, m, o)
  {
    var v := Apply(w, Call(i, id));
    assert TaskOk(w, i) && ClaimOwn(w, i, k) && !PendingAt(w, i, k);
    EventKeeps(w, map[], Work(Call(i, id)));
    forall j ensures !PendingAt(v, j, k) { assert !PendingAt(w, j, k); }
  }

  lemma WriteSparesTomb(w: World, k: Key, m: FileMeta, o: Obj, i: nat, at: Time)
    requires Entombed(w, k, m, o) && CanWrite(w, i)
    ensures Entombed(Apply(w, Write(i, at)), k, m, o)
  {
    var v := Apply(w, Write(i, at));
    EventKeeps(w, map[], Work(Write(i, at)));
    assert !PendingAt(w, i, k);
    forall j ensures !PendingAt(v, j, k) { assert !PendingAt(w, j, k); }
  }

  lemma BeginSparesTomb(w: World, k: Key, m: FileMeta, o: Obj, hold: map<RelId, int>, e: Event)
    requires Entombed(w, k, m, o) && e.Begin? && Possible(w, hold, e)
    ensures Entombed(After(w, hold, e), k, m, o)
  {
    var v := After(w, hold, e);
    EventKeeps(w, hold, e);
    forall j ensures !PendingAt(v, j, k) {
      if 0 <= j < |v.tasks| { assert Planned(e.s, e.owner, e.route, v.tasks[j]); }
    }
  }

  lemma EventSparesTomb(w: World, k: Key, m: FileMeta, o: Obj, hold: map<RelId, int>, e: Event)
    requires Entombed(w, k, m, o) && Possible(w, hold, e) && Undisturbed(e, k, m, hold)
    ensures Entombed(After(w, hold, e), k, m, o)
  {
    var v := After(w, hold, e);
    match e {
      case Begin(_, _, _, _) => BeginSparesTomb(w, k, m, o, hold, e);
      case Work(step) =>
        match step {
          case Call(i, id) => CallSparesTomb(w, k, m, o, i, id);
          case Write(i, at) => WriteSparesTomb(w, k, m, o, i, at);
        }
      case _ =>
        EventKeeps(w, hold, e);
        forall j ensures !PendingAt(v, j, k) { assert !PendingAt(w, j, k); }
    }
  }

  lemma LifeSparesTomb(w: World, k: Key, m: FileMeta, o: Obj, hold: map<RelId, int>, events: seq<Event>)
    requires Entombed(w, k, m, o) && Lives(w, hold, events)
    requires forall i :: 0 <= i < |events| ==> Undisturbed(events[i], k, m, hold)
    ensures Entombed(Life(w, hold, events), k, m, o)
    decreases |events|
  {
    if events != [] {
      EventSparesTomb(w, k, m, o, hold, events[0]);
      LifeSparesTomb(After(w, hold, events[0]), k, m, o, hold, events[1..]);
    }
  }

  /** Deletion is reversible for the whole window. After a path was trashed, any run of
      passes, crashes, edits of other paths, outside Drive edits and sweeps before the
      deadline leaves Restore able to recreate the object's content at the local path and put
      the same object back at its position. The path is then in sync, with nothing left for the
      next merge to do, exactly when the object still had the hash the row recorded when it was
      trashed; otherwise the row keeps the stale hash and the next merge sends the content again. */
  lemma DeletionIsReversible(w: World, k: Key, m: FileMeta, o: Obj, hold: map<RelId, int>, events: seq<Event>, at: Time)
    requires Entombed(w, k, m, o) && Lives(w, hold, events) && Idle(Life(w, hold, events))
    requires forall i :: 0 <= i < |events| ==> Undisturbed(events[i], k, m, hold)
    ensures var v := Life(w, hold, events);
      CanRestore(v, k) && Lives(v, hold, RestoreSteps(v, k, at, Seen))
    ensures var v := RestoreOutcome(Life(w, hold, events), k, at, Seen, Restored);
      && k.path in v.local && Binary(v.local[k.path].bytes) == o.content
      && m.remoteId in v.drive.objs && v.drive.objs[m.remoteId].place == At(k)
      && v.drive.objs[m.remoteId].content == o.content
      && k in v.rows && v.rows[k].status == Synced && v.rows[k].deletedAt == None && v.rows[k].remoteId == m.remoteId
      && (InSync(v, k) <==> DigestOf(o.content) == m.remoteMd5)
      && forall s :: SnapshotOf(s, v.local, v.drive, v.rows) && InChain(s.chain, k.rel) ==>
           k in s.base && OwnedTask(s, k).action == if DigestOf(o.content) == m.remoteMd5 then Nothing else Reupload
  {
    LifeSparesTomb(w, k, m, o, hold, events);
    var u := Life(w, hold, events);
    assert TrackedOk(u.drive.objs[m.remoteId], u.rows, k);
    RestoreIsALife(u, hold, k, at, Seen);
    var v := RestoreOutcome(u, k, at, Seen, Restored);
    forall s | SnapshotOf(s, v.local, v.drive, v.rows) && InChain(s.chain, k.rel)
      ensures k in s.base && OwnedTask(s, k).action == if DigestOf(o.content) == m.remoteMd5 then Nothing else Reupload
    {
      RestoredMerge(v, s, k);
    }
  }

  /** The next merge of a path whose row and file agree and whose object is in its place. */
  lemma RestoredMerge(v: World, s: Snapshot, k: Key)
    requires SnapshotOf(s, v.local, v.drive, v.rows) && InChain(s.chain, k.rel)
    requires Live(v.rows, k) && k.path in v.local && v.rows[k].remoteMd5 != NoDigest
    requires v.rows[k].localSize == |v.local[k.path].bytes| && v.rows[k].localMtime == v.local[k.path].mtime
    requires v.rows[k].remoteId in v.drive.objs
    requires v.drive.objs[v.rows[k].remoteId].place == At(k) && v.drive.objs[v.rows[k].remoteId].content.Binary?
    ensures k in s.base
    ensures OwnedTask(s, k).action ==
            if DigestOf(v.drive.objs[v.rows[k].remoteId].content) == v.rows[k].remoteMd5 then Nothing else Reupload
  {
    var m, cands := v.rows[k], ListedAt(s.listing, k);
    assert Holds(cands, m.remoteId);
    ListedIsThere(v, s, k, PickIndex(cands, Some(BaseOf(m))));
  }

  // ---- PurgeTrash ----

  /** The TRASHED entries a purge is about: one, or the whole tank. */
  function PurgeKeys(rows: Rows, only: Option<Key>): set<Key> {
    set k | k in rows && rows[k].status == Trashed && (only == None || only == Some(k))
  }

  /** A TRASHED row on a connected account: the one asked for, or any when none was. */
  predicate IsAsked(rows: Rows, only: Option<Key>, accounts: map<RelId, Account>, clients: set<Account>, k: Key) {
    k in rows && rows[k].status == Trashed && (only.Some? ==> k == only.value) && k.rel in accounts && accounts[k.rel] in clients
  }

  /** Any other row stays as it is, and an object goes only with a row that was asked for. */
  ghost predicate KeptUnlessAsked(rows0: Rows, objs0: map<ObjId, Obj>, only: Option<Key>, accounts: map<RelId, Account>,
                                  clients: set<Account>, rows: Rows, objs: map<ObjId, Obj>) {
    && (forall k :: k in rows0 && !IsAsked(rows0, only, accounts, clients, k) ==> k in rows && rows[k] == rows0[k])
    && (forall id :: id in objs0 ==>
          || (id in objs && objs[id] == objs0[id])
          || exists k :: IsAsked(rows0, only, accounts, clients, k) && rows0[k].remoteId == id)
  }

  ghost predicate GoneWhenAsked(rows0: Rows, only: Option<Key>, accounts: map<RelId, Account>, clients: set<Account>,
                                rows: Rows, objs: map<ObjId, Obj>) {
    forall k :: IsAsked(rows0, only, accounts, clients, k) ==> k !in rows && rows0[k].remoteId !in objs
  }

  lemma PurgeInWords(rows: Rows, objs: map<ObjId, Obj>, only: Option<Key>, accounts: map<RelId, Account>, clients: set<Account>,
                     gone: set<Key>, kept: set<Key>)
    requires forall k :: k in gone ==> IsAsked(rows, only, accounts, clients, k)
    ensures KeptUnlessAsked(rows, objs, only, accounts, clients, rows - (gone - kept), objs - IdsOf(rows, gone))
    ensures kept == {} && (forall k :: IsAsked(rows, only, accounts, clients, k) ==> k in gone) ==>
              GoneWhenAsked(rows, only, accounts, clients, rows - (gone - kept), objs - IdsOf(rows, gone))
  {
    forall id | id in objs && id in IdsOf(rows, gone) ensures exists k :: IsAsked(rows, only, accounts, clients, k) && rows[k].remoteId == id {
      var k :| k in gone && k in rows && rows[k].remoteId == id;
      assert IsAsked(rows, only, accounts, clients, k);
    }
  }

  class Purger {
    const manager: Manager

    constructor (m: Manager)
      ensures manager == m
    {
      manager := m;
    }

    /** Early, explicit deletion. Purging one entry that is not there, or stays, is an error. */
    method PurgeTrash(only: Option<Key>, clients: set<Account>, badDeletes: set<Key>, badRows: set<Key>)
      returns (purged: nat, ok: bool, ghost gone: set<Key>)
      requires "" !in manager.cloud.drive.objs
      modifies manager.store`rows, manager.cloud`drive
      ensures Swept(old(manager.store.rows), old(manager.cloud.drive).objs, gone, badRows,
                    manager.store.rows, manager.cloud.drive.objs)
      ensures gone <= PurgeKeys(old(manager.store.rows), only) && purged == |gone - badRows|
      ensures ok ==> gone - badRows == gone
      ensures ok ==> var rows0, keys := old(manager.store.rows), PurgeKeys(old(manager.store.rows), only);
                gone == keys - manager.Stuck(rows0, clients, badDeletes, keys)
      ensures !ok ==> gone - badRows != gone || (only.Some? && purged == 0)
      ensures ok && only.Some? ==> purged > 0
      ensures KeptUnlessAsked(old(manager.store.rows), old(manager.cloud.drive).objs, only, manager.accounts, clients,
                              manager.store.rows, manager.cloud.drive.objs)
      ensures badDeletes == {} && badRows == {} ==>
                GoneWhenAsked(old(manager.store.rows), only, manager.accounts, clients, manager.store.rows, manager.cloud.drive.objs)
    {
      ghost var rows0, objs0 := manager.store.rows, manager.cloud.drive.objs;
      var trashed := manager.store.ListTrashed();
      var todo := if only == None then trashed else trashed * {only.value};
      assert todo == PurgeKeys(manager.store.rows, only);
      purged, ok, gone := manager.PurgeEntries(todo, clients, badDeletes, badRows);
      PurgeInWords(rows0, objs0, only, manager.accounts, clients, gone, badRows);
      if ok && only.Some? && purged == 0 { ok := false; }
    }
  }
}
