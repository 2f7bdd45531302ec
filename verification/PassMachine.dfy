/** core/sync/engine.go and worker.go: the tasks of one pass as a transition system.
    Every task is two atomic steps, the Drive call and the row write, and workers may
    interleave the steps of different tasks in any order. */
module PassMachine {
  import opened SyncTypes

  /** How far one task has come. rf is what the Drive call returned, at the time of the row write. */
  datatype Phase = Waiting | Called(rf: RemoteFile) | Done(rf: RemoteFile, at: Time)

  /** The three stores and the pass in progress; an idle daemon has no tasks. */
  datatype World = World(local: LocalTree, drive: Drive, rows: Rows, tasks: seq<Task>, phase: seq<Phase>)

  datatype Step = Call(i: nat, id: ObjId) | Write(i: nat, at: Time)

  ghost predicate WellFormed(w: World) { |w.phase| == |w.tasks| }

  predicate WritesRow(t: Task) { t.action != Dedupe }

  /** A brand-new object is created exactly when an upload has no remote state to update. */
  predicate Creates(t: Task) { Uploads(t.action) && t.remote.None? }

  predicate CallsDrive(t: Task) { t.action != Adopt }

  /** The existing object a task works on: a trash task asks the row, the others were told by the plan. */
  function Target(rows: Rows, t: Task): Option<ObjId> {
    if t.action == Trash then
      if t.key in rows then Some(rows[t.key].remoteId) else None
    else if t.remote.Some? then Some(t.remote.value.id)
    else None
  }

  // ---- the Drive call ----

  function Uploaded(o: Obj, bytes: Bytes): Obj { o.(content := Binary(bytes), version := o.version + 1) }

  function Moved(o: Obj, place: Place): Obj { o.(place := place, version := o.version + 1) }

  predicate CanCall(w: World, i: nat, id: ObjId) {
    && i < |w.tasks| && i < |w.phase| && w.phase[i].Waiting?
    && var t := w.tasks[i];
       if Uploads(t.action) then
         && t.key.path in w.local
         && if t.remote.Some? then id == t.remote.value.id && id in w.drive.objs
            else id != "" && id !in w.drive.used
       else if t.action == Trash then
         t.key in w.rows && id == w.rows[t.key].remoteId && id in w.drive.objs
       else if t.action == Dedupe then
         t.remote.Some? && id == t.remote.value.id && id in w.drive.objs
       else
         t.action == Adopt && t.remote.Some? && id == t.remote.value.id
  }

  function ObjectAfter(drive: Drive, local: LocalTree, t: Task, id: ObjId): Obj
    requires CallsDrive(t)
    requires Uploads(t.action) ==> t.key.path in local
    requires !Creates(t) ==> id in drive.objs
  {
    if Creates(t) then Obj(At(t.key), Binary(local[t.key.path].bytes), 1)
    else if Uploads(t.action) then Uploaded(drive.objs[id], local[t.key.path].bytes)
    else Moved(drive.objs[id], Tank(t.key.rel))
  }

  function DriveAfter(w: World, i: nat, id: ObjId): Drive
    requires CanCall(w, i, id)
  {
    if CallsDrive(w.tasks[i])
    then Drive(w.drive.objs[id := ObjectAfter(w.drive, w.local, w.tasks[i], id)], w.drive.used + {id})
    else w.drive
  }

  /** What the executor holds after the call; adoption only has the plan's remote state. */
  function Answer(w: World, i: nat, id: ObjId): RemoteFile
    requires CanCall(w, i, id)
  {
    var t := w.tasks[i];
    if CallsDrive(t) then Describe(id, ObjectAfter(w.drive, w.local, t, id))
    else RemoteFile(id, 0, t.remote.value.size, t.remote.value.md5)
  }

  // ---- the row write ----

  predicate CanWrite(w: World, i: nat) {
    && i < |w.tasks| && i < |w.phase| && w.phase[i].Called?
    && (w.tasks[i].action == Adopt ==> w.tasks[i].key.path in w.local)
    && (w.tasks[i].action == Trash ==> w.tasks[i].key in w.rows)
  }

  /** The row a task leaves. An upload whose local file vanished before the stat records
      the current time and size zero. */
  function RowAfter(local: LocalTree, rows: Rows, t: Task, rf: RemoteFile, at: Time): FileMeta
    requires WritesRow(t)
    requires t.action == Trash ==> t.key in rows
  {
    if t.action == Trash then rows[t.key].(status := Trashed, deletedAt := Some(at))
    else
      var fi := StatAt(local, t.key.path);
      var stat := if fi.Some? then fi.value else LocalState(at, 0);
      FileMeta(stat.mtime, stat.size, rf.id, rf.version, rf.md5,
               if t.action == Conflict then Conflicted else Synced, None)
  }

  function RowsAfter(w: World, i: nat, at: Time): Rows
    requires CanWrite(w, i)
  {
    var t := w.tasks[i];
    if WritesRow(t) then w.rows[t.key := RowAfter(w.local, w.rows, t, w.phase[i].rf, at)] else w.rows
  }

  // ---- runs ----

  predicate Enabled(w: World, s: Step) {
    match s
    case Call(i, id) => CanCall(w, i, id)
    case Write(i, _) => CanWrite(w, i)
  }

  function Apply(w: World, s: Step): World
    requires Enabled(w, s)
  {
    match s
    case Call(i, id) => w.(drive := DriveAfter(w, i, id), phase := w.phase[i := Called(Answer(w, i, id))])
    case Write(i, at) => w.(rows := RowsAfter(w, i, at), phase := w.phase[i := Done(w.phase[i].rf, at)])
  }

  predicate Runnable(w: World, steps: seq<Step>)
    decreases |steps|
  {
    steps == [] || (Enabled(w, steps[0]) && Runnable(Apply(w, steps[0]), steps[1..]))
  }

  function Run(w: World, steps: seq<Step>): World
    requires Runnable(w, steps)
    decreases |steps|
  {
    if steps == [] then w else Run(Apply(w, steps[0]), steps[1..])
  }

  predicate AllDone(w: World) { forall i :: 0 <= i < |w.phase| ==> w.phase[i].Done? }

  predicate AllWaiting(w: World) { forall i :: 0 <= i < |w.phase| ==> w.phase[i].Waiting? }

  // ---- what makes a set of tasks safe to run in any order ----

  ghost predicate TaskSound(w: World, t: Task) {
    && t.action != Nothing
    && (t.action == Trash ==> Live(w.rows, t.key) && w.rows[t.key].remoteId in w.drive.used)
    && (t.action != Trash && t.remote.Some? ==>
          var r := t.remote.value;
          && r.id in w.drive.objs
          && w.drive.objs[r.id].place == At(t.key)
          && r == StateOf(Describe(r.id, w.drive.objs[r.id])))
    && (t.action == Adopt || t.action == Dedupe ==> t.remote.Some?)
    && (t.action == Adopt ==> t.remote.value.md5 == DigestAt(w.local, t.key.path))
    && (Uploads(t.action) || t.action == Adopt ==> t.key.path in w.local)
  }

  function DigestAt(local: LocalTree, p: Path): Digest {
    if p in local then Md5(local[p].bytes) else NoDigest
  }

  ghost predicate TaskSoundAt(w: World, i: int) {
    0 <= i < |w.tasks| ==> TaskSound(w, w.tasks[i])
  }

  /** Two tasks write different rows and work on different objects. */
  ghost predicate Apart(w: World, i: int, j: int) {
    0 <= i < |w.tasks| && 0 <= j < |w.tasks| && i != j ==>
      && (WritesRow(w.tasks[i]) && WritesRow(w.tasks[j]) ==> w.tasks[i].key != w.tasks[j].key)
      && (Target(w.rows, w.tasks[i]).Some? ==> Target(w.rows, w.tasks[i]) != Target(w.rows, w.tasks[j]))
  }

  /** Only a path's own row may track what a task of that path, other than a trash, works on. */
  ghost predicate TargetOwn(w: World, i: int, k: Key) {
    0 <= i < |w.tasks| && w.tasks[i].action != Trash && k in w.rows ==>
      Target(w.rows, w.tasks[i]) == Some(w.rows[k].remoteId) ==>
      WritesRow(w.tasks[i]) && k == w.tasks[i].key
  }

  /** The tasks touch pairwise disjoint rows and pairwise disjoint objects, and nothing a
      task other than a trash works on is tracked by a row of another path. */
  ghost predicate Sound(w: World) {
    && WellFormed(w)
    && w.drive.objs.Keys <= w.drive.used
    && "" !in w.drive.used
    && (forall i :: TaskSoundAt(w, i))
    && (forall i, j :: Apart(w, i, j))
    && (forall i, k :: TargetOwn(w, i, k))
  }
}
