/** core/sync/engine.go:249-295: what a pass books on an account, against what its uploads add to it. */
module Bookings {
  import opened SyncTypes
  import opened Merging
  import opened PlanSpec
  import opened PassMachine
  import opened PlanSound
  import opened Schedule
  import opened Runs
  import Planner
  import S = Space

  // ---- how much an account holds ----

  function Weight(o: Obj, rels: set<RelId>): nat { if RelOf(o.place) in rels then SizeOf(o.content) else 0 }

  ghost function SizeSum(objs: map<ObjId, Obj>, ids: set<ObjId>, rels: set<RelId>): nat
    requires ids <= objs.Keys
  {
    if ids == {} then 0
    else
      var id :| id in ids;
      Weight(objs[id], rels) + SizeSum(objs, ids - {id}, rels)
  }

  /** The bytes in the containers, tanks included, of the relations on an account. */
  ghost function Usage(objs: map<ObjId, Obj>, rels: set<RelId>): nat { SizeSum(objs, objs.Keys, rels) }

  lemma {:induction false} SumWithout(objs: map<ObjId, Obj>, ids: set<ObjId>, rels: set<RelId>, id: ObjId)
    requires ids <= objs.Keys && id in ids
    ensures SizeSum(objs, ids, rels) == Weight(objs[id], rels) + SizeSum(objs, ids - {id}, rels)
    decreases |ids|
  {
    var first :| first in ids && SizeSum(objs, ids, rels) == Weight(objs[first], rels) + SizeSum(objs, ids - {first}, rels);
    if first != id {
      SumWithout(objs, ids - {first}, rels, id);
      SumWithout(objs, ids - {id}, rels, first);
      assert ids - {first} - {id} == ids - {id} - {first};
    }
  }

  lemma {:induction false} SumAlike(a: map<ObjId, Obj>, b: map<ObjId, Obj>, ids: set<ObjId>, rels: set<RelId>)
    requires ids <= a.Keys && ids <= b.Keys && forall id :: id in ids ==> Weight(a[id], rels) == Weight(b[id], rels)
    ensures SizeSum(a, ids, rels) == SizeSum(b, ids, rels)
    decreases |ids|
  {
    if ids != {} {
      var id :| id in ids;
      SumWithout(a, ids, rels, id);
      SumWithout(b, ids, rels, id);
      SumAlike(a, b, ids - {id}, rels);
    }
  }

  lemma UsageOfUpdate(objs: map<ObjId, Obj>, rels: set<RelId>, id: ObjId, o: Obj)
    ensures Usage(objs[id := o], rels) ==
            Usage(objs, rels) + Weight(o, rels) - (if id in objs then Weight(objs[id], rels) else 0)
  {
    var now := objs[id := o];
    SumWithout(now, now.Keys, rels, id);
    if id in objs { SumWithout(objs, objs.Keys, rels, id); }
    assert now.Keys - {id} == objs.Keys - {id};
    if id !in objs { assert objs.Keys - {id} == objs.Keys; }
    SumAlike(objs, now, objs.Keys - {id}, rels);
  }

  // ---- what a task adds ----

  /** The size of the object an upload updates in place; 0 for one that creates its object. */
  function Replaced(d: Drive, t: Task): nat {
    if t.remote.Some? && t.remote.value.id in d.objs then SizeOf(d.objs[t.remote.value.id].content) else 0
  }

  function Adds(w0: World, t: Task, rels: set<RelId>): int {
    if Uploads(t.action) && t.key.path in w0.local && t.key.rel in rels
    then |w0.local[t.key.path].bytes| - Replaced(w0.drive, t) else 0
  }

  /** A tracked object in a tank is in its own relation's. */
  ghost predicate TankedAtHome(w: World) { forall k :: AtHome(w, k) }

  ghost predicate AtHome(w: World, k: Key) {
    k in w.rows && w.rows[k].remoteId in w.drive.objs ==> RelOf(w.drive.objs[w.rows[k].remoteId].place) == k.rel
  }

  /** A Drive call adds what its task adds, to the task's own account, and nothing elsewhere. */
  lemma CallAdds(w0: World, w: World, i: nat, id: ObjId, rels: set<RelId>)
    requires Mirrors(w0, w) && TankedAtHome(w0) && CanCall(w, i, id)
    ensures Usage(DriveAfter(w, i, id).objs, rels) == Usage(w.drive.objs, rels) + Adds(w0, w.tasks[i], rels)
  {
    var t := w.tasks[i];
    if CallsDrive(t) {
      CallIsOnOriginal(w0, w, i, id);
      UsageOfUpdate(w.drive.objs, rels, id, ObjectAfter(w.drive, w.local, t, id));
    }
  }

  lemma CallIsOnOriginal(w0: World, w: World, i: nat, id: ObjId)
    requires Mirrors(w0, w) && TankedAtHome(w0) && CanCall(w, i, id) && CallsDrive(w.tasks[i])
    ensures if Creates(w.tasks[i]) then id !in w.drive.objs
            else id in w0.drive.objs && id in w.drive.objs && w.drive.objs[id] == w0.drive.objs[id]
                 && Target(w0.rows, w.tasks[i]) == Some(id) && RelOf(w.drive.objs[id].place) == w.tasks[i].key.rel
  {
    var t := w.tasks[i];
    assert TaskSoundAt(w0, i);
    if t.action == Trash { RowUntouched(w0, w, i); assert SameRow(w0.rows, w.rows, t.key) && AtHome(w0, t.key); }
    if !Creates(t) {
      TargetUntouched(w0, w, i, id);
      assert SameObject(w0.drive, w.drive, id);
    }
  }

  // ---- what a pass books ----

  function Positive(n: int): nat { if n > 0 then n else 0 }

  /** What planning books on the account of a task's relation: the growth over the row for an owned path,
      the growth over the twin for an update in place, and the whole size of a routed file. */
  ghost function Booking(s: Snapshot, owner: map<Path, RelId>, t: Task): nat {
    if !Uploads(t.action) || t.key.path !in s.local then 0
    else if t.key.path in owner then if t.key in s.base then Positive(Planner.GrowthOf(s, t.key)) else 0
    else match FindTwin(s.chain, s.listing, t.key.path)
         case Some(twin) => Positive(|s.local[t.key.path].bytes| - twin.state.size)
         case None => |s.local[t.key.path].bytes|
  }

  /** The upload of an owned path whose object is smaller than its row says, or gone, and smaller
      than the file. */
  ghost predicate Underbooked(w0: World, s: Snapshot, owner: map<Path, RelId>, t: Task) {
    && Uploads(t.action) && t.key.path in owner && t.key in s.base && t.key.path in w0.local
    && Replaced(w0.drive, t) < |w0.local[t.key.path].bytes|
    && Replaced(w0.drive, t) < s.base[t.key].localSize
  }

  lemma TargetSize(w0: World, s: Snapshot, owner: map<Path, RelId>, route: map<Path, RelId>, t: Task)
    requires Planning(w0, s, owner, route) && Planned(s, owner, route, t) && t.action != Trash && t.remote.Some?
    ensures Replaced(w0.drive, t) == t.remote.value.size
  {
    PlannedObserved(s, owner, route, t);
    ObservedIsThere(w0, s, t);
  }

  lemma PlannedBooking(s: Snapshot, owner: map<Path, RelId>, route: map<Path, RelId>, t: Task)
    requires Planned(s, owner, route, t) && Uploads(t.action) && t.key.path in s.local
    ensures var sent, booked := |s.local[t.key.path].bytes|, Booking(s, owner, t);
      if t.key.path in owner then t.key in s.base && booked == Positive(sent - s.base[t.key].localSize)
      else booked == sent || (t.remote.Some? && booked == Positive(sent - t.remote.value.size))
  {
  }

  /** A task's booking covers what it adds exactly unless it is underbooked. */
  lemma BookingCoversExactlyWhen(w0: World, s: Snapshot, owner: map<Path, RelId>, route: map<Path, RelId>, t: Task, rels: set<RelId>)
    requires Planning(w0, s, owner, route) && Planned(s, owner, route, t) && t.key.rel in rels
    ensures Adds(w0, t, rels) <= Booking(s, owner, t) <==> !Underbooked(w0, s, owner, t)
  {
    if Uploads(t.action) && t.key.path in w0.local {
      PlannedBooking(s, owner, route, t);
      if t.remote.Some? { TargetSize(w0, s, owner, route, t); }
    }
  }

  /** At every moment of every run of the pass: a Drive call lets its account grow by no more than was booked
      for its task exactly unless the task is underbooked. */
  lemma CallWithinBookingExactlyWhen(w0: World, s: Snapshot, owner: map<Path, RelId>, route: map<Path, RelId>,
                                     steps: seq<Step>, i: nat, id: ObjId, rels: set<RelId>)
    requires Planning(w0, s, owner, route) && TankedAtHome(w0) && Runnable(w0, steps)
    requires CanCall(Run(w0, steps), i, id) && i < |w0.tasks| && w0.tasks[i].key.rel in rels
    ensures Usage(DriveAfter(Run(w0, steps), i, id).objs, rels)
            <= Usage(Run(w0, steps).drive.objs, rels) + Booking(s, owner, w0.tasks[i])
            <==> !Underbooked(w0, s, owner, w0.tasks[i])
  {
    PlanIsSound(w0, s, owner, route);
    PassMirrors(w0, steps);
    assert Planned(s, owner, route, w0.tasks[i]);
    CallAdds(w0, Run(w0, steps), i, id, rels);
    BookingCoversExactlyWhen(w0, s, owner, route, w0.tasks[i], rels);
  }

  // ---- whole passes ----

  /** What the first n tasks that have made their call added. */
  ghost function AddedBy(w0: World, phase: seq<Phase>, n: nat, rels: set<RelId>): int
    requires n <= |w0.tasks| == |phase|
  {
    if n == 0 then 0
    else AddedBy(w0, phase, n - 1, rels) + if phase[n - 1].Waiting? then 0 else Adds(w0, w0.tasks[n - 1], rels)
  }

  lemma {:induction false} AddedByUpdate(w0: World, phase: seq<Phase>, n: nat, rels: set<RelId>, i: nat, p: Phase)
    requires n <= |w0.tasks| == |phase| && i < |phase| && !p.Waiting?
    ensures AddedBy(w0, phase[i := p], n, rels) ==
            AddedBy(w0, phase, n, rels) + if i < n && phase[i].Waiting? then Adds(w0, w0.tasks[i], rels) else 0
    decreases n
  {
    if n > 0 { AddedByUpdate(w0, phase, n - 1, rels, i, p); }
  }

  lemma {:induction false} NobodyAdded(w0: World, phase: seq<Phase>, n: nat, rels: set<RelId>)
    requires n <= |w0.tasks| == |phase| && forall i :: 0 <= i < |phase| ==> phase[i].Waiting?
    ensures AddedBy(w0, phase, n, rels) == 0
  {
    if n > 0 { NobodyAdded(w0, phase, n - 1, rels); }
  }

  /** A pass, complete or cut short, adds to an account exactly what its calls add. */
  lemma {:induction false} RunAdds(w0: World, w: World, steps: seq<Step>, rels: set<RelId>)
    requires Mirrors(w0, w) && TankedAtHome(w0) && Runnable(w, steps)
    ensures Mirrors(w0, Run(w, steps))
    ensures Usage(Run(w, steps).drive.objs, rels) - AddedBy(w0, Run(w, steps).phase, |w0.tasks|, rels)
            == Usage(w.drive.objs, rels) - AddedBy(w0, w.phase, |w0.tasks|, rels)
    decreases |steps|
  {
    if steps != [] {
      StepAdds(w0, w, steps[0], rels);
      RunAdds(w0, Apply(w, steps[0]), steps[1..], rels);
    }
  }

  lemma StepAdds(w0: World, w: World, step: Step, rels: set<RelId>)
    requires Mirrors(w0, w) && TankedAtHome(w0) && Enabled(w, step)
    ensures Mirrors(w0, Apply(w, step))
    ensures Usage(Apply(w, step).drive.objs, rels) - AddedBy(w0, Apply(w, step).phase, |w0.tasks|, rels)
            == Usage(w.drive.objs, rels) - AddedBy(w0, w.phase, |w0.tasks|, rels)
  {
    match step {
      case Call(i, id) =>
        CallMirrors(w0, w, i, id);
        CallAdds(w0, w, i, id, rels);
        AddedByUpdate(w0, w.phase, |w0.tasks|, rels, i, Called(Answer(w, i, id)));
      case Write(i, at) =>
        WriteMirrors(w0, w, i, at);
        AddedByUpdate(w0, w.phase, |w0.tasks|, rels, i, Done(w.phase[i].rf, at));
    }
  }

  /** What a pass books on an account for its first n tasks. */
  ghost function BookedFor(s: Snapshot, owner: map<Path, RelId>, tasks: seq<Task>, n: nat, rels: set<RelId>): nat
    requires n <= |tasks|
  {
    if n == 0 then 0
    else BookedFor(s, owner, tasks, n - 1, rels) + if tasks[n - 1].key.rel in rels then Booking(s, owner, tasks[n - 1]) else 0
  }

  ghost predicate Within(w0: World, s: Snapshot, owner: map<Path, RelId>, rels: set<RelId>, i: int) {
    0 <= i < |w0.tasks| && w0.tasks[i].key.rel in rels ==> Adds(w0, w0.tasks[i], rels) <= Booking(s, owner, w0.tasks[i])
  }

  lemma {:induction false} AddedWithinBooked(w0: World, s: Snapshot, owner: map<Path, RelId>, phase: seq<Phase>, n: nat, rels: set<RelId>)
    requires n <= |w0.tasks| == |phase| && forall i :: Within(w0, s, owner, rels, i)
    ensures AddedBy(w0, phase, n, rels) <= BookedFor(s, owner, w0.tasks, n, rels)
  {
    if n > 0 {
      AddedWithinBooked(w0, s, owner, phase, n - 1, rels);
      assert Within(w0, s, owner, rels, n - 1);
    }
  }

  lemma AllWithin(w0: World, s: Snapshot, owner: map<Path, RelId>, route: map<Path, RelId>, rels: set<RelId>)
    requires Planning(w0, s, owner, route)
    requires forall i :: 0 <= i < |w0.tasks| && w0.tasks[i].key.rel in rels ==> !Underbooked(w0, s, owner, w0.tasks[i])
    ensures forall i :: Within(w0, s, owner, rels, i)
  {
    forall i ensures Within(w0, s, owner, rels, i) {
      if 0 <= i < |w0.tasks| && w0.tasks[i].key.rel in rels {
        BookingCoversExactlyWhen(w0, s, owner, route, w0.tasks[i], rels);
      }
    }
  }

  lemma PassAdds(w0: World, s: Snapshot, owner: map<Path, RelId>, route: map<Path, RelId>, steps: seq<Step>, rels: set<RelId>)
    requires Planning(w0, s, owner, route) && TankedAtHome(w0) && Runnable(w0, steps)
    ensures |Run(w0, steps).phase| == |w0.tasks|
    ensures Usage(Run(w0, steps).drive.objs, rels) ==
            Usage(w0.drive.objs, rels) + AddedBy(w0, Run(w0, steps).phase, |w0.tasks|, rels)
  {
    PlanIsSound(w0, s, owner, route);
    StartMirrors(w0);
    RunAdds(w0, w0, steps, rels);
    NobodyAdded(w0, w0.phase, |w0.tasks|, rels);
  }

  /** When no task of the account is underbooked, no part of the pass lets the account grow by more than
      the pass booked on it. */
  lemma PassWithinBookings(w0: World, s: Snapshot, owner: map<Path, RelId>, route: map<Path, RelId>, steps: seq<Step>, rels: set<RelId>)
    requires Planning(w0, s, owner, route) && TankedAtHome(w0) && Runnable(w0, steps)
    requires forall i :: 0 <= i < |w0.tasks| && w0.tasks[i].key.rel in rels ==> !Underbooked(w0, s, owner, w0.tasks[i])
    ensures Usage(Run(w0, steps).drive.objs, rels)
            <= Usage(w0.drive.objs, rels) + BookedFor(s, owner, w0.tasks, |w0.tasks|, rels)
  {
    PassAdds(w0, s, owner, route, steps, rels);
    AllWithin(w0, s, owner, route, rels);
    AddedWithinBooked(w0, s, owner, Run(w0, steps).phase, |w0.tasks|, rels);
  }

  // ---- a pass that is underbooked ----

  const LOST: Key := Key(1, "f")

  function Sent(): LocalFile { LocalFile(seq(600, _ => 0), 0) }

  /** f has 600 bytes, and its object was permanently deleted on Drive. */
  function LostOnDrive(): World {
    World(map[LOST.path := Sent()], Drive(map[], {"x"}),
          map[LOST := FileMeta(0, 600, "x", 1, Md5(Sent().bytes), Synced, None)], [], [])
  }

  function Found(): Snapshot { Snapshot([FolderTarget(1, "a", 0)], LostOnDrive().local, map[], LostOnDrive().rows, {}) }

  /** The pass sends all of f and books nothing for it. */
  lemma LostObjectIsUnbooked()
    ensures SnapshotOf(Found(), LostOnDrive().local, LostOnDrive().drive, LostOnDrive().rows) && LOST in Found().base
    ensures var t := OwnedTask(Found(), LOST);
      && t.action == Reupload && Underbooked(LostOnDrive(), Found(), map["f" := 1], t)
      && Booking(Found(), map["f" := 1], t) == 0 && Adds(LostOnDrive(), t, {1}) == 600
  {
    assert Found().chain[0].id == 1;
  }

  /** So, with a limit of 1000 of which 700 were used and f's 600 are free again, it accepts another 700 bytes
      beside f: 1400 bytes in all, against a floor of 800. */
  lemma UnbookedOverruns()
    ensures var d, ttl := S.DEFAULT_THRESHOLD, SECOND;
      var l := S.Moved(S.Moved(S.Started(1000, 700), "a", S.Free(600), ttl, d), "a", S.Use(0), ttl, d);
      var after := S.Moved(l, "a", S.Try(700, 0, S.Online), ttl, d);
      && S.Accepted(l, "a", 700, 0, S.Online, ttl, d) && !S.WavedThrough(l, "a", 0, S.Online, ttl)
      && after.loose == 0 && after.usage + after.open == 1000 - S.Reserve(1000, d) == 800
      && !S.Fair(after, "a", S.Arrive(700 + 600)) && after.usage + 700 + 600 == 1400
  {
  }

  // ---- tracked objects stay in their relation ----

  lemma CallKeepsHome(w: World, i: nat, id: ObjId, k: Key)
    requires Inv(w) && TankedAtHome(w) && CanCall(w, i, id)
    ensures AtHome(Apply(w, Call(i, id)), k)
  {
    assert ClaimOk(w, i) && TaskOk(w, i) && ClaimOwn(w, i, k) && AtHome(w, k);
    if w.tasks[i].key in w.rows { assert AtHome(w, w.tasks[i].key); }
  }

  lemma WriteKeepsHome(w: World, i: nat, at: Time, k: Key)
    requires Inv(w) && TankedAtHome(w) && CanWrite(w, i)
    ensures AtHome(Apply(w, Write(i, at)), k)
  {
    assert ClaimOk(w, i) && TaskOk(w, i) && AtHome(w, k);
  }

  /** Every event keeps each tracked object in its relation's container or tank. */
  lemma EventKeepsHome(w: World, hold: map<RelId, int>, e: Event)
    requires Inv(w) && TankedAtHome(w) && Possible(w, hold, e)
    ensures TankedAtHome(After(w, hold, e))
  {
    forall k ensures AtHome(After(w, hold, e), k) {
      assert AtHome(w, k);
      if e.Work? {
        match e.step {
          case Call(i, id) => CallKeepsHome(w, i, id, k);
          case Write(i, at) => WriteKeepsHome(w, i, at, k);
        }
      }
    }
  }

  lemma {:induction false} LifeKeepsHome(w: World, hold: map<RelId, int>, events: seq<Event>)
    requires Inv(w) && TankedAtHome(w) && Lives(w, hold, events)
    ensures TankedAtHome(Life(w, hold, events))
    decreases |events|
  {
    if events != [] {
      EventKeeps(w, hold, events[0]);
      EventKeepsHome(w, hold, events[0]);
      LifeKeepsHome(After(w, hold, events[0]), hold, events[1..]);
    }
  }
}
