/** "Local Is Law" for one path while the rest of the daemon's life goes on: other tasks of the pass,
    edits of other paths, sweeps and outside edits elsewhere fall between the steps of its task. */
module Traffic {
  import opened SyncTypes
  import opened Merging
  import opened PlanSpec
  import opened PassMachine
  import opened PlanSound
  import Schedule
  import opened Runs
  import opened Stamps
  import opened MirrorLaw

  /** The event is neither about the path's local file, row or listed object, nor the end of the pass. */
  predicate Elsewhere(w: World, e: Event, k: Key) {
    match e
    case Begin(_, _, _, _) => false
    case Halt => false
    case Edit(p, _) => p != k.path
    case Remove(p) => p != k.path
    case OutsideEdit(id, _) => id in w.drive.objs ==> w.drive.objs[id].place != At(k)
    case OutsideDelete(id) => id in w.drive.objs ==> w.drive.objs[id].place != At(k)
    case ReOwn(l, _, _) => l != k
    case Unbury(l) => l != k
    case Forget(ks) => k !in ks
    case _ => true
  }

  ghost predicate LifeElsewhere(w: World, hold: map<RelId, int>, events: seq<Event>, k: Key)
    requires Lives(w, hold, events)
    decreases |events|
  {
    events == [] || (Elsewhere(w, events[0], k) && LifeElsewhere(After(w, hold, events[0]), hold, events[1..], k))
  }

  predicate Holds(w: World, id: ObjId, k: Key, bytes: Bytes) {
    id in w.drive.objs && w.drive.objs[id].place == At(k) && w.drive.objs[id].content == Binary(bytes)
  }

  // ---- a path with a task ----

  /** Where the upload or adoption of the path stands. */
  ghost predicate OnCourse(w: World, k: Key, i: nat, f: LocalFile) {
    && Inv(w) && k.path in w.local && w.local[k.path] == f
    && i < |w.tasks| && w.tasks[i].key == k && (Uploads(w.tasks[i].action) || w.tasks[i].action == Adopt)
    && match w.phase[i]
       case Waiting =>
         w.tasks[i].action == Adopt ==>
           w.tasks[i].remote.Some? && Holds(w, w.tasks[i].remote.value.id, k, f.bytes) && w.tasks[i].remote.value.md5 == Md5(f.bytes)
       case Called(rf) => Holds(w, rf.id, k, f.bytes) && rf.md5 == Md5(f.bytes)
       case Done(rf, _) => InSync(w, k) && w.rows[k].remoteId == rf.id
  }

  lemma CallStaysOnCourse(w: World, j: nat, id: ObjId, k: Key, i: nat, f: LocalFile)
    requires OnCourse(w, k, i, f) && CanCall(w, j, id)
    ensures OnCourse(Apply(w, Call(j, id)), k, i, f)
  {
    EventKeeps(w, map[], Work(Call(j, id)));
    assert ClaimOk(w, i) && TaskOk(w, i);
    if j != i && CallsDrive(w.tasks[j]) { CalledIsOwn(w, j, id, i); }
  }

  lemma WriteStaysOnCourse(w: World, j: nat, at: Time, k: Key, i: nat, f: LocalFile)
    requires OnCourse(w, k, i, f) && CanWrite(w, j)
    ensures OnCourse(Apply(w, Write(j, at)), k, i, f)
  {
    EventKeeps(w, map[], Work(Write(j, at)));
    assert ClaimsApart(w, j, i) && TaskOk(w, i);
  }

  lemma SweepStaysOnCourse(w: World, hold: map<RelId, int>, e: Event, k: Key, i: nat, f: LocalFile)
    requires OnCourse(w, k, i, f) && e.Sweep? && Possible(w, hold, e)
    ensures OnCourse(After(w, hold, e), k, i, f)
  {
    EventKeeps(w, hold, e);
    DropIsSafe(w, e.key);
  }

  lemma OtherStaysOnCourse(w: World, hold: map<RelId, int>, e: Event, k: Key, i: nat, f: LocalFile)
    requires OnCourse(w, k, i, f) && !e.Work? && !e.Sweep? && Possible(w, hold, e) && Elsewhere(w, e, k)
    ensures OnCourse(After(w, hold, e), k, i, f)
  {
    EventKeeps(w, hold, e);
    assert ClaimOk(w, i);
  }

  lemma StaysOnCourse(w: World, hold: map<RelId, int>, e: Event, k: Key, i: nat, f: LocalFile)
    requires OnCourse(w, k, i, f) && Possible(w, hold, e) && Elsewhere(w, e, k)
    ensures OnCourse(After(w, hold, e), k, i, f) && After(w, hold, e).tasks == w.tasks
  {
    match e {
      case Work(step) =>
        match step {
          case Call(j, id) => CallStaysOnCourse(w, j, id, k, i, f);
          case Write(j, at) => WriteStaysOnCourse(w, j, at, k, i, f);
        }
      case Sweep(_, _, _) => SweepStaysOnCourse(w, hold, e, k, i, f);
      case _ => OtherStaysOnCourse(w, hold, e, k, i, f);
    }
  }

  lemma {:induction false} LifeOnCourse(w: World, hold: map<RelId, int>, events: seq<Event>, k: Key, i: nat, f: LocalFile)
    requires OnCourse(w, k, i, f) && Lives(w, hold, events) && LifeElsewhere(w, hold, events, k)
    ensures OnCourse(Life(w, hold, events), k, i, f) && Life(w, hold, events).tasks == w.tasks
    decreases |events|
  {
    if events != [] {
      StaysOnCourse(w, hold, events[0], k, i, f);
      LifeOnCourse(After(w, hold, events[0]), hold, events[1..], k, i, f);
    }
  }

  // ---- a path without one ----

  /** A live row nothing is under way for, in sync or with another hash than the local file. */
  ghost predicate AtRest(w: World, k: Key, m: FileMeta, f: LocalFile, synced: bool) {
    && Inv(w) && k.path in w.local && w.local[k.path] == f && Live(w.rows, k) && w.rows[k] == m
    && (forall j :: NoWriter(w, j, k))
    && (if synced then InSync(w, k) else m.remoteMd5 != Md5(f.bytes))
  }

  predicate NoWriter(w: World, j: int, k: Key) {
    0 <= j < |w.tasks| && WritesRow(w.tasks[j]) ==> w.tasks[j].key != k
  }

  lemma WorkKeepsRest(w: World, step: Step, k: Key, m: FileMeta, f: LocalFile, synced: bool)
    requires AtRest(w, k, m, f, synced) && Enabled(w, step)
    ensures AtRest(Apply(w, step), k, m, f, synced)
  {
    EventKeeps(w, map[], Work(step));
    assert NoWriter(w, step.i, k) && ClaimOwn(w, step.i, k) && TaskOk(w, step.i);
    forall j ensures NoWriter(Apply(w, step), j, k) { assert NoWriter(w, j, k); }
  }

  lemma OtherKeepsRest(w: World, hold: map<RelId, int>, e: Event, k: Key, m: FileMeta, f: LocalFile, synced: bool)
    requires AtRest(w, k, m, f, synced) && !e.Work? && Possible(w, hold, e) && Elsewhere(w, e, k)
    ensures AtRest(After(w, hold, e), k, m, f, synced)
  {
    EventKeeps(w, hold, e);
    if e.Sweep? || e.Purge? { DropIsSafe(w, e.key); }
    forall j ensures NoWriter(After(w, hold, e), j, k) { assert NoWriter(w, j, k); }
  }

  lemma {:induction false} LifeAtRest(w: World, hold: map<RelId, int>, events: seq<Event>, k: Key, m: FileMeta, f: LocalFile, synced: bool)
    requires AtRest(w, k, m, f, synced) && Lives(w, hold, events) && LifeElsewhere(w, hold, events, k)
    ensures AtRest(Life(w, hold, events), k, m, f, synced)
    decreases |events|
  {
    if events != [] {
      if events[0].Work? { WorkKeepsRest(w, events[0].step, k, m, f, synced); }
      else { OtherKeepsRest(w, hold, events[0], k, m, f, synced); }
      LifeAtRest(After(w, hold, events[0]), hold, events[1..], k, m, f, synced);
    }
  }

  // ---- the law ----

  lemma StartsOnCourse(w0: World, s: Snapshot, owner: map<Path, RelId>, route: map<Path, RelId>, t: Task) returns (i: nat)
    requires Planning(w0, s, owner, route) && Planned(s, owner, route, t) && (Uploads(t.action) || t.action == Adopt)
    ensures t.key.path in w0.local && OnCourse(w0, t.key, i, w0.local[t.key.path])
  {
    PassKeepsRows(w0, s, owner, route, []);
    i :| 0 <= i < |w0.tasks| && w0.tasks[i] == t;
    PlannedTaskSound(w0, s, owner, route, i);
    SoundIsOnCourse(w0, i);
  }

  lemma SoundIsOnCourse(w: World, i: nat)
    requires Inv(w) && AllWaiting(w) && i < |w.tasks| && TaskSound(w, w.tasks[i])
    requires Uploads(w.tasks[i].action) || w.tasks[i].action == Adopt
    ensures w.tasks[i].key.path in w.local && OnCourse(w, w.tasks[i].key, i, w.local[w.tasks[i].key.path])
  {
    assert TaskOk(w, i);
  }

  lemma StartsAtRest(w0: World, s: Snapshot, owner: map<Path, RelId>, route: map<Path, RelId>, k: Key)
    requires Planning(w0, s, owner, route) && k.path in w0.local
    requires k in s.base && k.path in owner && owner[k.path] == k.rel && OwnedTask(s, k).action == Nothing
    ensures AtRest(w0, k, w0.rows[k], w0.local[k.path], !Blind(w0, k))
  {
    PassKeepsRows(w0, s, owner, route, []);
    PlanIsSound(w0, s, owner, route);
    Schedule.StartMirrors(w0);
    NothingSyncs(w0, s, owner, route, w0, k);
    forall j ensures NoWriter(w0, j, k) {
      if 0 <= j < |w0.tasks| { assert Planned(s, owner, route, w0.tasks[j]); }
    }
  }

  lemma TaskEndsInSync(w0: World, s: Snapshot, owner: map<Path, RelId>, route: map<Path, RelId>, t: Task,
                       hold: map<RelId, int>, events: seq<Event>)
    requires Planning(w0, s, owner, route) && Planned(s, owner, route, t) && (Uploads(t.action) || t.action == Adopt)
    requires Lives(w0, hold, events) && LifeElsewhere(w0, hold, events, t.key)
    requires PathDone(Life(w0, hold, events), t.key.path)
    ensures InSync(Life(w0, hold, events), t.key)
  {
    var i := StartsOnCourse(w0, s, owner, route, t);
    LifeOnCourse(w0, hold, events, t.key, i, w0.local[t.key.path]);
  }

  /** What is planned for a path that has something planned. */
  lemma PathTask(w0: World, s: Snapshot, owner: map<Path, RelId>, route: map<Path, RelId>, p: Path) returns (t: Task)
    requires SnapshotOf(s, w0.local, w0.drive, w0.rows) && OwnerMap(s.base, owner) && RowsOk(w0.drive, w0.rows)
    requires p in w0.local && !Deferred(s, owner, route, p)
    requires p in owner ==> OwnedTask(s, Home(s, owner, route, p)).action != Nothing
    ensures Planned(s, owner, route, t) && (Uploads(t.action) || t.action == Adopt) && t.key == Home(s, owner, route, p)
    ensures !Unseen(w0, s, owner, route, p)
  {
    var k := Home(s, owner, route, p);
    t := if p in owner then OwnedTask(s, k) else NewTask(s, route, p).value;
    if p in owner && Blind(w0, k) { BlindDoesNothing(w0, s, k); }
  }

  /** The law amid traffic. Whatever else happens between the steps of a pass, a local path that
      was not deferred and whose own task completed is in sync if and only if its merge was
      not blind. */
  lemma LawAmidTraffic(w0: World, s: Snapshot, owner: map<Path, RelId>, route: map<Path, RelId>,
                       hold: map<RelId, int>, events: seq<Event>, p: Path)
    requires Planning(w0, s, owner, route) && p in w0.local && !Deferred(s, owner, route, p)
    requires Lives(w0, hold, events) && LifeElsewhere(w0, hold, events, Home(s, owner, route, p))
    requires PathDone(Life(w0, hold, events), p)
    ensures InSync(Life(w0, hold, events), Home(s, owner, route, p)) <==> !Unseen(w0, s, owner, route, p)
  {
    var k := Home(s, owner, route, p);
    if p in owner && OwnedTask(s, k).action == Nothing {
      StartsAtRest(w0, s, owner, route, k);
      LifeAtRest(w0, hold, events, k, w0.rows[k], w0.local[p], !Blind(w0, k));
    } else {
      var t := PathTask(w0, s, owner, route, p);
      TaskEndsInSync(w0, s, owner, route, t, hold, events);
    }
  }
}
