/** The daemon's whole life as one transition system: passes running step by step on several
    workers, crashes, local edits, outside Drive edits, retention sweeps, purges and restores,
    in any order. The row invariant holds in every reachable state, also in mid-pass. */
module Runs {
  import opened SyncTypes
  import opened PlanSpec
  import opened PassMachine
  import opened PlanSound

  datatype Event =
    | Begin(s: Snapshot, owner: map<Path, RelId>, route: map<Path, RelId>, tasks: seq<Task>)
    | Work(step: Step)
    | Halt                                          // the pass ends, is cancelled, or the daemon stops
    | Edit(path: Path, file: LocalFile)
    | Remove(path: Path)
    | OutsideEdit(id: ObjId, content: Content)      // through drive.google.com
    | OutsideDelete(id: ObjId)                      // permanently, not into Drive's own bin
    | OutsideAdd(id: ObjId, key: Key, content: Content)
    | Sweep(key: Key, now: Time, rowToo: bool)      // retention; rowToo is false when dropping the row failed
    | Purge(key: Key, rowToo: bool)
    | ReOwn(key: Key, at: Time, seen: bool)         // Restore's row write, after its download and stat
    | Unbury(key: Key)                              // Restore's move out of the holding tank
    | Forget(keys: set<Key>)                        // rows lost with the database or with a removed folder

  const DAY := 86_400 * SECOND

  /** TrashedBefore's test: deleted_at plus the folder's holding period is not after now. */
  predicate Expired(m: FileMeta, holdDays: int, now: Time) {
    m.status == Trashed && m.deletedAt.Some? && m.deletedAt.value + holdDays * DAY <= now
  }

  function Waits(n: nat): seq<Phase> { seq(n, _ => Waiting) }

  function DropObject(d: Drive, id: ObjId): Drive { d.(objs := d.objs - {id}) }

  function DropEntry(w: World, k: Key, rowToo: bool): World
    requires k in w.rows
  {
    w.(drive := DropObject(w.drive, w.rows[k].remoteId), rows := if rowToo then w.rows - {k} else w.rows)
  }

  predicate Idle(w: World) { w.tasks == [] && w.phase == [] }

  ghost predicate Possible(w: World, hold: map<RelId, int>, e: Event) {
    match e
    case Begin(s, owner, route, tasks) =>
      Idle(w) && SnapshotOf(s, w.local, w.drive, w.rows) && IsPlan(s, owner, route, tasks)
    case Work(step) => Enabled(w, step)
    case Halt => true
    case Edit(_, _) => true
    case Remove(_) => true
    case OutsideEdit(id, c) =>
      id in w.drive.objs && w.drive.objs[id].place.At? && (w.drive.objs[id].content.Binary? ==> c.Binary?)
    case OutsideDelete(id) => id in w.drive.objs && w.drive.objs[id].place.At?
    case OutsideAdd(id, _, _) => id !in w.drive.used && id != ""
    case Sweep(k, now, _) => k in w.rows && k.rel in hold && Expired(w.rows[k], hold[k.rel], now)
    case Purge(k, _) => Idle(w) && k in w.rows && w.rows[k].status == Trashed
    case ReOwn(k, _, _) => Idle(w) && k in w.rows && w.rows[k].status == Trashed
    case Unbury(k) =>
      Idle(w) && Live(w.rows, k) && w.rows[k].remoteId in w.drive.objs && w.drive.objs[w.rows[k].remoteId].place.Tank?
    case Forget(_) => Idle(w)
  }

  /** The row Restore writes back: the file's true stamp, or the current time when it cannot be read. */
  function ReOwned(local: LocalTree, k: Key, m: FileMeta, at: Time, seen: bool): FileMeta {
    var fi := if seen then StatAt(local, k.path) else None;
    var r := m.(status := Synced, deletedAt := None);
    if fi.Some? then r.(localMtime := fi.value.mtime, localSize := fi.value.size) else r.(localMtime := at)
  }

  ghost function After(w: World, hold: map<RelId, int>, e: Event): World
    requires Possible(w, hold, e)
  {
    match e
    case Begin(_, _, _, tasks) => w.(tasks := tasks, phase := Waits(|tasks|))
    case Work(step) => Apply(w, step)
    case Halt => w.(tasks := [], phase := [])
    case Edit(p, f) => w.(local := w.local[p := f])
    case Remove(p) => w.(local := w.local - {p})
    case OutsideEdit(id, c) =>
      var o := w.drive.objs[id];
      w.(drive := w.drive.(objs := w.drive.objs[id := o.(content := c, version := o.version + 1)]))
    case OutsideDelete(id) => w.(drive := DropObject(w.drive, id))
    case OutsideAdd(id, k, c) => w.(drive := Drive(w.drive.objs[id := Obj(At(k), c, 1)], w.drive.used + {id}))
    case Sweep(k, _, rowToo) => DropEntry(w, k, rowToo)
    case Purge(k, rowToo) => DropEntry(w, k, rowToo)
    case ReOwn(k, at, seen) => w.(rows := w.rows[k := ReOwned(w.local, k, w.rows[k], at, seen)])
    case Unbury(k) =>
      var id := w.rows[k].remoteId;
      w.(drive := w.drive.(objs := w.drive.objs[id := Moved(w.drive.objs[id], At(k))]))
    case Forget(ks) => w.(rows := w.rows - ks)
  }

  // ---- the invariant ----

  /** The object a task other than a trash is responsible for, from plan to completion. */
  function Claim(w: World, i: int): Option<ObjId>
    requires 0 <= i < |w.tasks| && |w.phase| == |w.tasks|
  {
    if w.tasks[i].action == Trash then None
    else if w.phase[i].Waiting? then
      if w.tasks[i].remote.Some? then Some(w.tasks[i].remote.value.id) else None
    else Some(w.phase[i].rf.id)
  }

  ghost predicate ClaimOk(w: World, i: int)
    requires |w.phase| == |w.tasks|
  {
    0 <= i < |w.tasks| && Claim(w, i).Some? ==>
      var t, c := w.tasks[i], Claim(w, i).value;
      && c in w.drive.used
      && (c in w.drive.objs ==>
            && (w.drive.objs[c].place.At? || t.action == Dedupe)
            && (w.drive.objs[c].place.At? ==> w.drive.objs[c].place.key == t.key)
            && (t.action == Adopt || !w.phase[i].Waiting? ==> t.action == Dedupe || w.drive.objs[c].content.Binary?))
  }

  ghost predicate TaskOk(w: World, i: int)
    requires |w.phase| == |w.tasks|
  {
    0 <= i < |w.tasks| ==>
      var t, p := w.tasks[i], w.phase[i];
      && t.action != Nothing
      && (t.action == Trash && !p.Done? ==> Live(w.rows, t.key))
      && (t.action == Trash && p.Called? ==>
            p.rf.id == w.rows[t.key].remoteId && (p.rf.id in w.drive.objs ==> w.drive.objs[p.rf.id].place.Tank?))
      && (t.action == Adopt ==> t.remote.Some? && t.remote.value.md5 != NoDigest)
      && (t.action == Adopt || Uploads(t.action) ==> !p.Waiting? ==> p.rf.md5 != NoDigest)
      && (t.remote.Some? && t.action != Trash && !p.Waiting? ==> p.rf.id == t.remote.value.id)
  }

  ghost predicate ClaimsApart(w: World, i: int, j: int)
    requires |w.phase| == |w.tasks|
  {
    0 <= i < |w.tasks| && 0 <= j < |w.tasks| && i != j ==>
      && (WritesRow(w.tasks[i]) && WritesRow(w.tasks[j]) ==> w.tasks[i].key != w.tasks[j].key)
      && (Claim(w, i).Some? ==> Claim(w, i) != Claim(w, j))
  }

  ghost predicate ClaimOwn(w: World, i: int, k: Key)
    requires |w.phase| == |w.tasks|
  {
    0 <= i < |w.tasks| && k in w.rows && Claim(w, i) == Some(w.rows[k].remoteId) ==>
      WritesRow(w.tasks[i]) && k == w.tasks[i].key
  }

  ghost predicate TasksOk(w: World)
    requires |w.phase| == |w.tasks|
  {
    && (forall i :: ClaimOk(w, i))
    && (forall i :: TaskOk(w, i))
    && (forall i, j :: ClaimsApart(w, i, j))
    && (forall i, k :: ClaimOwn(w, i, k))
  }

  ghost predicate Inv(w: World) {
    WellFormed(w) && RowsOk(w.drive, w.rows) && TasksOk(w)
  }

  // ---- every event keeps it ----

  lemma BeginKeeps(w: World, hold: map<RelId, int>, e: Event)
    requires Inv(w) && e.Begin? && Possible(w, hold, e)
    ensures Inv(After(w, hold, e))
  {
    var v := After(w, hold, e);
    PlanIsSound(v, e.s, e.owner, e.route);
    SoundIsOk(v);
  }

  /** Before any of them ran, sound tasks claim what they work on. */
  lemma SoundIsOk(w: World)
    requires Sound(w) && AllWaiting(w) && RowsOk(w.drive, w.rows)
    ensures TasksOk(w)
  {
    forall i ensures ClaimOk(w, i) && TaskOk(w, i) { assert TaskSoundAt(w, i); }
    forall i, j ensures ClaimsApart(w, i, j) { assert Apart(w, i, j); }
    forall i, k ensures ClaimOwn(w, i, k) { assert TargetOwn(w, i, k); }
  }

  /** The object a called task works on belongs to no other task and to no other path's row. */
  lemma CalledIsOwn(w: World, i: nat, id: ObjId, j: int)
    requires Inv(w) && CanCall(w, i, id) && CallsDrive(w.tasks[i]) && 0 <= j < |w.tasks| && j != i
    ensures Claim(w, j) != Some(id)
    ensures w.tasks[j].action == Trash && !w.phase[j].Done? ==>
              w.tasks[j].key in w.rows && w.rows[w.tasks[j].key].remoteId != id
  {
    assert ClaimsApart(w, i, j);
    assert ClaimOk(w, j) && TaskOk(w, j) && TaskOk(w, i);
    if w.tasks[i].action == Trash {
      assert ClaimOwn(w, j, w.tasks[i].key);
    }
    if w.tasks[j].action == Trash && !w.phase[j].Done? {
      assert ClaimOwn(w, i, w.tasks[j].key);
    }
  }

  lemma CallKeepsRows(w: World, i: nat, id: ObjId)
    requires Inv(w) && CanCall(w, i, id)
    ensures RowsOk(DriveAfter(w, i, id), w.rows)
  {
    assert ClaimOk(w, i) && TaskOk(w, i);
    forall k | k in w.rows && w.rows[k].remoteId in DriveAfter(w, i, id).objs
      ensures TrackedOk(DriveAfter(w, i, id).objs[w.rows[k].remoteId], w.rows, k)
    {
      assert ClaimOwn(w, i, k);
      assert w.rows[k].remoteId in w.drive.used;
    }
  }

  lemma CallKeepsApart(w: World, i: nat, id: ObjId, j: int, l: int)
    requires Inv(w) && CanCall(w, i, id)
    ensures ClaimsApart(Apply(w, Call(i, id)), j, l)
  {
    assert ClaimOk(w, i) && TaskOk(w, i) && ClaimsApart(w, j, l);
    if 0 <= j < |w.tasks| && j != i && CallsDrive(w.tasks[i]) { CalledIsOwn(w, i, id, j); }
    if 0 <= l < |w.tasks| && l != i && CallsDrive(w.tasks[i]) { CalledIsOwn(w, i, id, l); }
  }

  lemma CallKeepsTasks(w: World, i: nat, id: ObjId)
    requires Inv(w) && CanCall(w, i, id)
    ensures TasksOk(Apply(w, Call(i, id)))
  {
    var v := Apply(w, Call(i, id));
    assert ClaimOk(w, i) && TaskOk(w, i);
    forall j ensures ClaimOk(v, j) && TaskOk(v, j) {
      assert ClaimOk(w, j) && TaskOk(w, j);
      if 0 <= j < |w.tasks| && j != i && CallsDrive(w.tasks[i]) { CalledIsOwn(w, i, id, j); }
    }
    forall j, l ensures ClaimsApart(v, j, l) { CallKeepsApart(w, i, id, j, l); }
    forall j, k ensures ClaimOwn(v, j, k) { assert ClaimOwn(w, j, k); }
  }

  lemma WriteKeepsRows(w: World, i: nat, at: Time)
    requires Inv(w) && CanWrite(w, i)
    ensures RowsOk(w.drive, RowsAfter(w, i, at))
  {
    assert ClaimOk(w, i) && TaskOk(w, i);
    var t := w.tasks[i];
    var rows := RowsAfter(w, i, at);
    forall k, l | k in rows && l in rows && k != l ensures rows[k].remoteId != rows[l].remoteId {
      assert ClaimOwn(w, i, k) && ClaimOwn(w, i, l);
    }
  }

  lemma WriteKeepsTasks(w: World, i: nat, at: Time)
    requires Inv(w) && CanWrite(w, i)
    ensures TasksOk(Apply(w, Write(i, at)))
  {
    var v := Apply(w, Write(i, at));
    assert ClaimOk(w, i) && TaskOk(w, i);
    forall j ensures ClaimOk(v, j) && TaskOk(v, j) {
      assert ClaimOk(w, j) && TaskOk(w, j) && ClaimsApart(w, i, j);
    }
    forall j, l ensures ClaimsApart(v, j, l) {
      assert ClaimsApart(w, j, l);
    }
    forall j, k ensures ClaimOwn(v, j, k) {
      assert ClaimOwn(w, j, k) && ClaimsApart(w, i, j);
    }
  }

  /** Sweeping or purging a TRASHED row reaches a holding-tank object that no live row
      tracks and no running task is responsible for. */
  lemma DropIsSafe(w: World, k: Key)
    requires Inv(w) && k in w.rows && w.rows[k].status == Trashed
    ensures var id := w.rows[k].remoteId;
      && (id in w.drive.objs ==> w.drive.objs[id].place.Tank?)
      && (forall l :: Live(w.rows, l) ==> w.rows[l].remoteId != id)
      && (forall i :: 0 <= i < |w.tasks| && id in w.drive.objs ==> Claim(w, i) != Some(id))
  {
    forall i | 0 <= i < |w.tasks| && w.rows[k].remoteId in w.drive.objs
      ensures Claim(w, i) != Some(w.rows[k].remoteId)
    {
      assert ClaimOwn(w, i, k) && ClaimOk(w, i);
    }
  }

  lemma DropKeeps(w: World, k: Key, rowToo: bool)
    requires Inv(w) && k in w.rows && w.rows[k].status == Trashed
    ensures Inv(DropEntry(w, k, rowToo))
  {
    var v := DropEntry(w, k, rowToo);
    forall i ensures ClaimOk(v, i) && TaskOk(v, i) {
      assert ClaimOk(w, i) && TaskOk(w, i);
    }
    forall i, j ensures ClaimsApart(v, i, j) { assert ClaimsApart(w, i, j); }
    forall i, l ensures ClaimOwn(v, i, l) { assert ClaimOwn(w, i, l); }
  }

  lemma OutsideKeepsRows(w: World, hold: map<RelId, int>, e: Event)
    requires RowsOk(w.drive, w.rows) && (e.OutsideEdit? || e.OutsideDelete? || e.OutsideAdd?) && Possible(w, hold, e)
    ensures RowsOk(After(w, hold, e).drive, w.rows)
  {
  }

  lemma OutsideKeeps(w: World, hold: map<RelId, int>, e: Event)
    requires Inv(w) && (e.OutsideEdit? || e.OutsideDelete? || e.OutsideAdd?) && Possible(w, hold, e)
    ensures Inv(After(w, hold, e))
  {
    var v := After(w, hold, e);
    OutsideKeepsRows(w, hold, e);
    forall i ensures ClaimOk(v, i) && TaskOk(v, i) {
      assert ClaimOk(w, i) && TaskOk(w, i);
    }
    forall i, j ensures ClaimsApart(v, i, j) { assert ClaimsApart(w, i, j); }
    forall i, l ensures ClaimOwn(v, i, l) { assert ClaimOwn(w, i, l); }
  }

  lemma EditKeeps(w: World, hold: map<RelId, int>, e: Event)
    requires Inv(w) && (e.Edit? || e.Remove?) && Possible(w, hold, e)
    ensures Inv(After(w, hold, e))
  {
    var v := After(w, hold, e);
    forall i ensures ClaimOk(v, i) && TaskOk(v, i) { assert ClaimOk(w, i) && TaskOk(w, i); }
    forall i, j ensures ClaimsApart(v, i, j) { assert ClaimsApart(w, i, j); }
    forall i, l ensures ClaimOwn(v, i, l) { assert ClaimOwn(w, i, l); }
  }

  lemma ReOwnKeepsRows(drive: Drive, rows: Rows, k: Key, m: FileMeta)
    requires RowsOk(drive, rows) && k in rows && m.remoteId == rows[k].remoteId && m.remoteMd5 == rows[k].remoteMd5
    requires rows[k].status == Trashed
    ensures RowsOk(drive, rows[k := m])
  {
    assert m.remoteId in drive.objs ==> TrackedOk(drive.objs[m.remoteId], rows, k);
    forall l | l in rows && rows[k := m][l].remoteId in drive.objs
      ensures TrackedOk(drive.objs[rows[k := m][l].remoteId], rows[k := m], l)
    {
      assert TrackedOk(drive.objs[rows[l].remoteId], rows, l);
    }
  }

  lemma UnburyKeepsRows(drive: Drive, rows: Rows, k: Key)
    requires RowsOk(drive, rows) && Live(rows, k) && rows[k].remoteId in drive.objs
    ensures var id := rows[k].remoteId; RowsOk(drive.(objs := drive.objs[id := Moved(drive.objs[id], At(k))]), rows)
  {
  }

  lemma IdleKeeps(w: World, hold: map<RelId, int>, e: Event)
    requires Inv(w) && (e.ReOwn? || e.Unbury? || e.Forget?) && Possible(w, hold, e)
    ensures Inv(After(w, hold, e))
  {
    match e {
      case ReOwn(k, at, seen) => ReOwnKeepsRows(w.drive, w.rows, k, ReOwned(w.local, k, w.rows[k], at, seen));
      case Unbury(k) => UnburyKeepsRows(w.drive, w.rows, k);
      case Forget(_) =>
    }
  }

  lemma EventKeeps(w: World, hold: map<RelId, int>, e: Event)
    requires Inv(w) && Possible(w, hold, e)
    ensures Inv(After(w, hold, e))
  {
    match e {
      case Begin(_, _, _, _) => BeginKeeps(w, hold, e);
      case Work(step) =>
        match step {
          case Call(i, id) => CallKeepsRows(w, i, id); CallKeepsTasks(w, i, id);
          case Write(i, at) => WriteKeepsRows(w, i, at); WriteKeepsTasks(w, i, at);
        }
      case Halt =>
      case Edit(_, _) => EditKeeps(w, hold, e);
      case Remove(_) => EditKeeps(w, hold, e);
      case OutsideEdit(_, _) => OutsideKeeps(w, hold, e);
      case OutsideDelete(_) => OutsideKeeps(w, hold, e);
      case OutsideAdd(_, _, _) => OutsideKeeps(w, hold, e);
      case Sweep(k, _, rowToo) => DropKeeps(w, k, rowToo);
      case Purge(k, rowToo) => DropKeeps(w, k, rowToo);
      case _ => IdleKeeps(w, hold, e);
    }
  }

  // ---- whole lives ----

  ghost predicate Lives(w: World, hold: map<RelId, int>, events: seq<Event>)
    decreases |events|
  {
    events == [] || (Possible(w, hold, events[0]) && Lives(After(w, hold, events[0]), hold, events[1..]))
  }

  ghost function Life(w: World, hold: map<RelId, int>, events: seq<Event>): World
    requires Lives(w, hold, events)
    decreases |events|
  {
    if events == [] then w else Life(After(w, hold, events[0]), hold, events[1..])
  }

  lemma LifeKeeps(w: World, hold: map<RelId, int>, events: seq<Event>)
    requires Inv(w) && Lives(w, hold, events)
    ensures Inv(Life(w, hold, events))
    decreases |events|
  {
    if events != [] {
      EventKeeps(w, hold, events[0]);
      LifeKeeps(After(w, hold, events[0]), hold, events[1..]);
    }
  }

  /** The steps of a pass, complete or cut short. */
  lemma {:induction false} RunKeeps(w: World, steps: seq<Step>)
    requires Inv(w) && Runnable(w, steps)
    ensures Inv(Run(w, steps))
    decreases |steps|
  {
    if steps != [] {
      EventKeeps(w, map[], Work(steps[0]));
      RunKeeps(Apply(w, steps[0]), steps[1..]);
    }
  }

  /** A pass over stores that satisfy the row invariant leaves stores that satisfy it. */
  lemma PassKeepsRows(w0: World, s: Snapshot, owner: map<Path, RelId>, route: map<Path, RelId>, steps: seq<Step>)
    requires Planning(w0, s, owner, route) && Runnable(w0, steps)
    ensures Inv(Run(w0, steps))
  {
    var idle := w0.(tasks := [], phase := []);
    var e := Begin(s, owner, route, w0.tasks);
    assert w0.phase == Waits(|w0.tasks|);
    BeginKeeps(idle, map[], e);
    RunKeeps(w0, steps);
  }

  /** A fresh installation: any local tree, any foreign objects on Drive, no rows. */
  ghost predicate Installed(w: World) {
    Idle(w) && w.rows == map[] && w.drive.objs.Keys <= w.drive.used && "" !in w.drive.used
  }

  /** In every reachable state no two rows share an object, a listed tracked object sits at
      its own live row's path, and whatever a sweep or a purge deletes next is in a holding
      tank, tracked by no live row and used by no running task. */
  lemma RetentionSparesLiveObjects(w: World, hold: map<RelId, int>, events: seq<Event>, e: Event)
    requires Installed(w) && Lives(w, hold, events)
    requires Possible(Life(w, hold, events), hold, e) && (e.Sweep? || e.Purge?)
    ensures var v := Life(w, hold, events);
      var id := v.rows[e.key].remoteId;
      && WellFormed(v) && RowsOk(v.drive, v.rows)
      && (id in v.drive.objs ==> v.drive.objs[id].place.Tank?)
      && (forall k :: Live(v.rows, k) ==> v.rows[k].remoteId != id)
      && (forall k :: Live(v.rows, k) ==> Live(After(v, hold, e).rows, k))
      && (forall i :: 0 <= i < |v.tasks| && id in v.drive.objs ==> Claim(v, i) != Some(id))
  {
    LifeKeeps(w, hold, events);
    DropIsSafe(Life(w, hold, events), e.key);
  }
}
