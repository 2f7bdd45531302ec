/** Where the guarantees end: promises of the source that hold exactly under a condition, and
    what the daemon does when the condition fails. */
module Limits {
  import opened SyncTypes
  import opened Merging
  import opened PlanSpec
  import opened PassMachine
  import opened PlanSound
  import opened Schedule
  import opened Runs
  import opened MirrorLaw
  import opened Ownership

  // ---- when a pass can succeed at all ----

  /** Every trash task finds its object; the objects other tasks need were listed. */
  ghost predicate TrashablesExist(w0: World, s: Snapshot, owner: map<Path, RelId>) {
    forall p :: p in owner && p !in w0.local ==>
      Key(owner[p], p) in s.base && s.base[Key(owner[p], p)].remoteId in w0.drive.objs
  }

  lemma TrashableCanCall(w0: World, v: World, n: nat)
    requires Mirrors(w0, v) && n < |v.tasks| && v.phase[n].Waiting? && v.tasks[n].action == Trash
    requires v.tasks[n].key in w0.rows && w0.rows[v.tasks[n].key].remoteId in w0.drive.objs
    ensures CanCall(v, n, w0.rows[v.tasks[n].key].remoteId)
  {
    var id := w0.rows[v.tasks[n].key].remoteId;
    RowUntouched(w0, v, n);
    assert SameRow(w0.rows, v.rows, v.tasks[n].key);
    TargetUntouched(w0, v, n, id);
    assert SameObject(w0.drive, v.drive, id);
  }

  lemma ListedCanCall(w0: World, v: World, n: nat)
    requires Mirrors(w0, v) && n < |v.tasks| && v.phase[n].Waiting?
    requires v.tasks[n].action != Trash && v.tasks[n].remote.Some?
    ensures CanCall(v, n, v.tasks[n].remote.value.id)
  {
    var id := v.tasks[n].remote.value.id;
    assert TaskSoundAt(w0, n);
    TargetUntouched(w0, v, n, id);
    assert SameObject(w0.drive, v.drive, id);
  }

  lemma TurnCanCall(w0: World, s: Snapshot, owner: map<Path, RelId>, route: map<Path, RelId>, v: World, n: nat)
    returns (id: ObjId)
    requires Planning(w0, s, owner, route) && TrashablesExist(w0, s, owner)
    requires Mirrors(w0, v) && n < |v.tasks| && v.phase[n].Waiting?
    ensures CanCall(v, n, id)
  {
    var t := w0.tasks[n];
    assert TaskSoundAt(w0, n);
    if t.action == Trash {
      id := w0.rows[t.key].remoteId;
      assert Planned(s, owner, route, t);
      TrashableCanCall(w0, v, n);
    } else if t.remote.Some? {
      id := t.remote.value.id;
      ListedCanCall(w0, v, n);
    } else {
      id := NewId(v.drive.used, "n");
    }
  }

  predicate FirstDone(v: World, n: nat) {
    && (forall i :: 0 <= i < n && i < |v.phase| ==> v.phase[i].Done?)
    && (forall i :: n <= i < |v.phase| ==> v.phase[i].Waiting?)
  }

  lemma TurnFinishes(w0: World, v: World, n: nat, id: ObjId)
    requires Mirrors(w0, v) && CanCall(v, n, id)
    requires FirstDone(v, n)
    ensures CanWrite(Apply(v, Call(n, id)), n)
    ensures var u := Apply(Apply(v, Call(n, id)), Write(n, 0)); Mirrors(w0, u) && FirstDone(u, n + 1)
  {
    CallMirrors(w0, v, n, id);
    var c := Apply(v, Call(n, id));
    assert TaskSoundAt(w0, n);
    if v.tasks[n].action == Trash {
      RowUntouched(w0, c, n);
      assert SameRow(w0.rows, c.rows, v.tasks[n].key);
    }
    WriteMirrors(w0, c, n, 0);
  }

  lemma OneMoreDone(w0: World, s: Snapshot, owner: map<Path, RelId>, route: map<Path, RelId>, before: seq<Step>, n: nat)
    returns (steps: seq<Step>)
    requires Planning(w0, s, owner, route) && TrashablesExist(w0, s, owner) && n < |w0.tasks|
    requires Runnable(w0, before) && Mirrors(w0, Run(w0, before)) && FirstDone(Run(w0, before), n)
    ensures Runnable(w0, steps) && Mirrors(w0, Run(w0, steps)) && FirstDone(Run(w0, steps), n + 1)
  {
    var u := Run(w0, before);
    var id := TurnCanCall(w0, s, owner, route, u, n);
    TurnFinishes(w0, u, n, id);
    RunTwoMore(w0, before, Call(n, id), Write(n, 0));
    steps := before + [Call(n, id), Write(n, 0)];
  }

  lemma NoneDone(w0: World, s: Snapshot, owner: map<Path, RelId>, route: map<Path, RelId>)
    requires Planning(w0, s, owner, route)
    ensures Mirrors(w0, Run(w0, [])) && FirstDone(Run(w0, []), 0)
  {
    PlanIsSound(w0, s, owner, route);
    StartMirrors(w0);
  }

  lemma {:induction false} FinishFirst(w0: World, s: Snapshot, owner: map<Path, RelId>, route: map<Path, RelId>, n: nat)
    returns (steps: seq<Step>)
    requires Planning(w0, s, owner, route) && TrashablesExist(w0, s, owner) && n <= |w0.tasks|
    ensures Runnable(w0, steps) && Mirrors(w0, Run(w0, steps)) && FirstDone(Run(w0, steps), n)
    decreases n
  {
    if n == 0 {
      NoneDone(w0, s, owner, route);
      steps := [];
    } else {
      var before := FinishFirst(w0, s, owner, route, n - 1);
      steps := OneMoreDone(w0, s, owner, route, before, n - 1);
    }
  }

  ghost predicate CanFinish(w0: World) {
    exists steps :: Runnable(w0, steps) && AllDone(Run(w0, steps))
  }

  lemma FinishedHadObjects(w0: World, s: Snapshot, owner: map<Path, RelId>, route: map<Path, RelId>)
    requires Planning(w0, s, owner, route) && CanFinish(w0)
    ensures TrashablesExist(w0, s, owner)
  {
    var steps :| Runnable(w0, steps) && AllDone(Run(w0, steps));
    PlanIsSound(w0, s, owner, route);
    PassMirrors(w0, steps);
    forall p | p in owner && p !in w0.local
      ensures Key(owner[p], p) in s.base && s.base[Key(owner[p], p)].remoteId in w0.drive.objs
    {
      DeletionsReachTheTank(w0, s, owner, route, Run(w0, steps), p);
    }
  }

  /** A planned pass can complete exactly when every locally deleted path it owns still has its
      object; no other task can be stopped by what the stores hold. */
  lemma PassCanFinishExactlyWhen(w0: World, s: Snapshot, owner: map<Path, RelId>, route: map<Path, RelId>)
    requires Planning(w0, s, owner, route)
    ensures CanFinish(w0) <==> TrashablesExist(w0, s, owner)
  {
    if CanFinish(w0) { FinishedHadObjects(w0, s, owner, route); }
    if TrashablesExist(w0, s, owner) {
      var steps := FinishFirst(w0, s, owner, route, |w0.tasks|);
      assert Runnable(w0, steps) && AllDone(Run(w0, steps));
    }
  }

  /** A live row of a locally deleted path whose object is gone, with nothing under way that
      could still write it. */
  ghost predicate Stranded(w: World, k: Key, m: FileMeta) {
    && Inv(w) && Live(w.rows, k) && w.rows[k] == m && m.remoteId !in w.drive.objs && k.path !in w.local
    && forall i :: Harmless(w, i, k)
  }

  ghost predicate Harmless(w: World, i: int, k: Key) {
    0 <= i < |w.tasks| && i < |w.phase| && w.tasks[i].key == k && WritesRow(w.tasks[i]) ==>
      w.phase[i].Done? || (w.phase[i].Waiting? && w.tasks[i].action == Trash)
  }

  lemma StepKeepsStranded(w: World, step: Step, k: Key, m: FileMeta)
    requires Stranded(w, k, m) && Enabled(w, step)
    ensures Stranded(Apply(w, step), k, m)
  {
    EventKeeps(w, map[], Work(step));
    var v := Apply(w, step);
    assert Harmless(w, step.i, k);
    forall i ensures Harmless(v, i, k) { assert Harmless(w, i, k); }
  }

  lemma EventKeepsStranded(w: World, hold: map<RelId, int>, e: Event, k: Key, m: FileMeta)
    requires Stranded(w, k, m) && Possible(w, hold, e)
    requires (e.Edit? ==> e.path != k.path) && (e.Forget? ==> k !in e.keys)
    ensures Stranded(After(w, hold, e), k, m)
  {
    if e.Work? {
      StepKeepsStranded(w, e.step, k, m);
    } else {
      EventKeeps(w, hold, e);
      var v := After(w, hold, e);
      forall i ensures Harmless(v, i, k) {
        assert Harmless(w, i, k);
        if e.Begin? && 0 <= i < |v.tasks| { assert Planned(e.s, e.owner, e.route, v.tasks[i]); }
      }
    }
  }

  lemma {:induction false} StrandedStays(w: World, hold: map<RelId, int>, events: seq<Event>, k: Key, m: FileMeta)
    requires Stranded(w, k, m) && Lives(w, hold, events)
    requires forall i :: 0 <= i < |events| ==>
               (events[i].Edit? ==> events[i].path != k.path) && (events[i].Forget? ==> k !in events[i].keys)
    ensures Stranded(Life(w, hold, events), k, m)
    decreases |events|
  {
    if events != [] {
      EventKeepsStranded(w, hold, events[0], k, m);
      StrandedStays(After(w, hold, events[0]), hold, events[1..], k, m);
    }
  }

  /** Once a tracked object is permanently deleted on Drive and its path locally, the row never leaves:
      whatever happens, short of the path coming back or the row being forgotten, it stays as it
      is, and no pass over its owner can complete. Moving an object that is gone is an error,
      although permanently deleting one counts as done. */
  lemma StrandedForever(w: World, hold: map<RelId, int>, events: seq<Event>, k: Key, m: FileMeta,
                        s: Snapshot, owner: map<Path, RelId>, route: map<Path, RelId>, tasks: seq<Task>)
    requires Stranded(w, k, m) && Lives(w, hold, events)
    requires forall i :: 0 <= i < |events| ==>
               (events[i].Edit? ==> events[i].path != k.path) && (events[i].Forget? ==> k !in events[i].keys)
    requires Possible(Life(w, hold, events), hold, Begin(s, owner, route, tasks))
    requires k.path in owner && owner[k.path] == k.rel
    ensures Live(Life(w, hold, events).rows, k) && Life(w, hold, events).rows[k] == m
    ensures !CanFinish(After(Life(w, hold, events), hold, Begin(s, owner, route, tasks)))
  {
    StrandedStays(w, hold, events, k, m);
    StrandedBlocks(Life(w, hold, events), hold, k, m, s, owner, route, tasks);
  }

  lemma StrandedBlocks(w: World, hold: map<RelId, int>, k: Key, m: FileMeta,
                       s: Snapshot, owner: map<Path, RelId>, route: map<Path, RelId>, tasks: seq<Task>)
    requires Stranded(w, k, m) && Possible(w, hold, Begin(s, owner, route, tasks)) && k.path in owner && owner[k.path] == k.rel
    ensures !CanFinish(After(w, hold, Begin(s, owner, route, tasks)))
  {
    PassCanFinishExactlyWhen(After(w, hold, Begin(s, owner, route, tasks)), s, owner, route);
    assert Key(owner[k.path], k.path) == k;
  }

  // ---- edits that fall between a task's reading of a file and its stat ----

  /** The row an upload or adoption writes is true exactly when the file still has the hash the
      Drive call answered with. When it has not, the row still carries the file's new stamp, so
      the next merge sees nothing to do: the edit is lost on Drive until the file changes again. */
  lemma RowTrueExactlyWhenUnedited(w: World, i: nat, at: Time)
    requires Inv(w) && CanWrite(w, i) && (Uploads(w.tasks[i].action) || w.tasks[i].action == Adopt)
    requires var t, rf := w.tasks[i], w.phase[i].rf;
      && t.key.path in w.local && rf.id in w.drive.objs
      && w.drive.objs[rf.id].place == At(t.key) && DigestOf(w.drive.objs[rf.id].content) == rf.md5
    ensures var t, v := w.tasks[i], Apply(w, Write(i, at));
      InSync(v, t.key) <==> DigestAt(w.local, t.key.path) == w.phase[i].rf.md5
    ensures var t, v := w.tasks[i], Apply(w, Write(i, at));
      forall s :: SnapshotOf(s, v.local, v.drive, v.rows) && InChain(s.chain, t.key.rel) ==>
        t.key in s.base && OwnedTask(s, t.key).action == Nothing
  {
    var t, v := w.tasks[i], Apply(w, Write(i, at));
    assert TaskOk(w, i);
    forall s | SnapshotOf(s, v.local, v.drive, v.rows) && InChain(s.chain, t.key.rel)
      ensures t.key in s.base && OwnedTask(s, t.key).action == Nothing
    {
      var cands := ListedAt(s.listing, t.key);
      assert Holds(cands, v.rows[t.key].remoteId);
      ListedIsThere(v, s, t.key, PickIndex(cands, Some(BaseOf(v.rows[t.key]))));
    }
  }

  // ---- restoring over a path that has moved on ----

  /** A restore keeps ownership single exactly when no other relation of the chain has the path. */
  lemma RestoreKeepsSingleOwnersExactlyWhen(chain: seq<FolderTarget>, local: LocalTree, rows: Rows, k: Key, at: Time, seen: bool)
    requires SingleOwners(chain, rows) && InChain(chain, k.rel) && k in rows && rows[k].status == Trashed
    ensures SingleOwners(chain, rows[k := ReOwned(local, k, rows[k], at, seen)]) <==>
            forall l :: OwnsIn(chain, rows, l) ==> l.path != k.path
  {
    var after := rows[k := ReOwned(local, k, rows[k], at, seen)];
    assert OwnsIn(chain, after, k);
    forall l: Key ensures OwnsIn(chain, after, l) <==> l == k || OwnsIn(chain, rows, l) {}
  }

  // ---- what the holding tank never gives back ----

  /** A tanked object that no row tracks and no task is about. */
  ghost predicate Orphan(w: World, id: ObjId, c: Content) {
    && Inv(w) && id in w.drive.objs && w.drive.objs[id].place.Tank? && w.drive.objs[id].content == c
    && (forall k :: k in w.rows ==> w.rows[k].remoteId != id)
    && forall i :: Unclaimed(w, i, id)
  }

  ghost predicate Unclaimed(w: World, i: int, id: ObjId)
    requires |w.phase| == |w.tasks|
  {
    0 <= i < |w.tasks| && !w.phase[i].Done? ==> Claim(w, i) != Some(id)
  }

  lemma CallKeepsOrphan(w: World, i: nat, x: ObjId, id: ObjId, c: Content)
    requires Orphan(w, id, c) && CanCall(w, i, x)
    ensures Orphan(Apply(w, Call(i, x)), id, c)
  {
    EventKeeps(w, map[], Work(Call(i, x)));
    var v := Apply(w, Call(i, x));
    assert Unclaimed(w, i, id);
    forall j ensures Unclaimed(v, j, id) { assert Unclaimed(w, j, id); }
  }

  lemma WriteKeepsOrphan(w: World, i: nat, at: Time, id: ObjId, c: Content)
    requires Orphan(w, id, c) && CanWrite(w, i)
    ensures Orphan(Apply(w, Write(i, at)), id, c)
  {
    EventKeeps(w, map[], Work(Write(i, at)));
    var v := Apply(w, Write(i, at));
    assert Unclaimed(w, i, id) && TaskOk(w, i);
    forall j ensures Unclaimed(v, j, id) { assert Unclaimed(w, j, id); }
  }

  lemma EventKeepsOrphan(w: World, hold: map<RelId, int>, e: Event, id: ObjId, c: Content)
    requires Orphan(w, id, c) && Possible(w, hold, e)
    ensures Orphan(After(w, hold, e), id, c)
  {
    if e.Work? {
      match e.step {
        case Call(i, x) => CallKeepsOrphan(w, i, x, id, c);
        case Write(i, at) => WriteKeepsOrphan(w, i, at, id, c);
      }
    } else {
      EventKeeps(w, hold, e);
      var v := After(w, hold, e);
      forall j ensures Unclaimed(v, j, id) {
        assert Unclaimed(w, j, id);
        if e.Begin? && 0 <= j < |v.tasks| {
          PlanIsSound(v, e.s, e.owner, e.route);
          assert TaskSoundAt(v, j);
        }
      }
    }
  }

  /** An orphan is never deleted nor moved: no later life of the daemon, sweeps and purges
      included, reclaims the space it takes. */
  lemma {:induction false} OrphanStays(w: World, hold: map<RelId, int>, events: seq<Event>, id: ObjId, c: Content)
    requires Orphan(w, id, c) && Lives(w, hold, events)
    ensures Orphan(Life(w, hold, events), id, c)
    decreases |events|
  {
    if events != [] {
      EventKeepsOrphan(w, hold, events[0], id, c);
      OrphanStays(After(w, hold, events[0]), hold, events[1..], id, c);
    }
  }

  /** Every swept duplicate becomes one. */
  lemma DedupedIsOrphan(w: World, i: nat, at: Time)
    requires Inv(w) && CanWrite(w, i) && w.tasks[i].action == Dedupe
    requires w.phase[i].rf.id in w.drive.objs && w.drive.objs[w.phase[i].rf.id].place.Tank?
    ensures var id := w.phase[i].rf.id; Orphan(Apply(w, Write(i, at)), id, w.drive.objs[id].content)
  {
    EventKeeps(w, map[], Work(Write(i, at)));
    var v, id := Apply(w, Write(i, at)), w.phase[i].rf.id;
    forall k | k in v.rows ensures v.rows[k].remoteId != id { assert ClaimOwn(w, i, k); }
    forall j ensures Unclaimed(v, j, id) { assert ClaimsApart(w, i, j); }
  }

  /** So does the tanked object of a deleted path that is created anew on the same relation:
      its TRASHED row is overwritten. */
  lemma RecreatedIsOrphan(w: World, i: nat, at: Time, id: ObjId)
    requires Inv(w) && CanWrite(w, i) && (Uploads(w.tasks[i].action) || w.tasks[i].action == Adopt)
    requires w.tasks[i].key in w.rows && w.rows[w.tasks[i].key].status == Trashed
    requires id == w.rows[w.tasks[i].key].remoteId && id in w.drive.objs
    ensures Orphan(Apply(w, Write(i, at)), id, w.drive.objs[id].content)
  {
    EventKeeps(w, map[], Work(Write(i, at)));
    var v, k := Apply(w, Write(i, at)), w.tasks[i].key;
    assert TaskOk(w, i) && ClaimOk(w, i);
    forall j ensures Unclaimed(v, j, id) {
      assert ClaimOwn(w, j, k) && ClaimsApart(w, i, j);
    }
  }
}
