/** "Local Is Law": what one completed pass guarantees, for every order its workers may run in. */
module MirrorLaw {
  import opened SyncTypes
  import opened Merging
  import opened PlanSpec
  import opened PassMachine
  import opened PlanSound
  import opened Schedule
  import opened Runs
  import opened Stamps

  /** The position's live row carries the local file's stamp and hash, and its object is
      listed there with exactly the local content. */
  ghost predicate InSync(w: World, k: Key) {
    && k.path in w.local && Live(w.rows, k)
    && var f, m := w.local[k.path], w.rows[k];
       && m.localSize == |f.bytes| && Seconds(m.localMtime) == Seconds(f.mtime)
       && m.remoteMd5 == Md5(f.bytes)
       && m.remoteId in w.drive.objs
       && w.drive.objs[m.remoteId].place == At(k)
       && w.drive.objs[m.remoteId].content == Binary(f.bytes)
  }

  /** The relation that owns a path once the pass has dealt with it. */
  function Home(s: Snapshot, owner: map<Path, RelId>, route: map<Path, RelId>, p: Path): Key
    requires p in s.local && !Deferred(s, owner, route, p)
  {
    if p in owner then Key(owner[p], p)
    else match FindTwin(s.chain, s.listing, p)
         case Some(twin) => Key(twin.rel, p)
         case None => Key(route[p], p)
  }

  /** A pass from w0 to w, run in some order, in which every task succeeded. */
  ghost predicate Completed(w0: World, s: Snapshot, owner: map<Path, RelId>, route: map<Path, RelId>, w: World) {
    Planning(w0, s, owner, route) && Mirrors(w0, w) && AllDone(w)
  }

  lemma Untargeted(w0: World, w: World, id: ObjId)
    requires Mirrors(w0, w) && id in w0.drive.objs
    requires forall i :: 0 <= i < |w.tasks| && CallsDrive(w.tasks[i]) ==> Target(w0.rows, w.tasks[i]) != Some(id)
    ensures Untouched(w, id) && SameObject(w0.drive, w.drive, id)
  {
    forall i ensures !Touches(w, i, id) {
      if 0 <= i < |w.tasks| && !w.phase[i].Waiting? && CallsDrive(w.tasks[i]) {
        assert AnswerOk(w0, w.tasks[i], w.phase[i].rf);
      }
    }
  }

  /** Whoever uploads or adopts a path leaves it in sync. */
  lemma TaskSyncs(w0: World, w: World, i: nat)
    requires Mirrors(w0, w) && i < |w.tasks| && w.phase[i].Done?
    requires Uploads(w.tasks[i].action) || w.tasks[i].action == Adopt
    ensures InSync(w, w.tasks[i].key)
  {
    var t, rf := w.tasks[i], w.phase[i].rf;
    assert TaskSoundAt(w0, i) && AnswerOk(w0, t, rf);
    if t.action == Adopt {
      forall j | 0 <= j < |w.tasks| && CallsDrive(w.tasks[j]) ensures Target(w0.rows, w.tasks[j]) != Some(rf.id) {
        assert Apart(w0, i, j);
      }
      Untargeted(w0, w, rf.id);
    }
  }

  /** The row a completed upload or adoption leaves, field by field: only a conflict is flagged, and only
      adoption does not know the object's version. */
  lemma TaskRow(w0: World, w: World, i: nat)
    requires Mirrors(w0, w) && i < |w.tasks| && w.phase[i].Done?
    requires Uploads(w.tasks[i].action) || w.tasks[i].action == Adopt
    ensures var t := w.tasks[i]; var k := t.key;
      && k.path in w.local && k in w.rows && w.rows[k].remoteId in w.drive.objs
      && var f, m := w.local[k.path], w.rows[k];
         && m.localMtime == f.mtime && m.localSize == |f.bytes| && m.remoteMd5 == Md5(f.bytes) && m.deletedAt == None
         && m.status == (if t.action == Conflict then Conflicted else Synced)
         && m.remoteVersion == (if t.action == Adopt then 0 else w.drive.objs[m.remoteId].version)
  {
    TaskSyncs(w0, w, i);
    assert TaskSoundAt(w0, i) && AnswerOk(w0, w.tasks[i], w.phase[i].rf);
  }

  /** An upload whose file is gone by its stat records the current time and size zero; as long as the file stays
      gone, the next merge trashes what was sent. */
  lemma VanishedRow(w: World, i: nat, at: Time)
    requires CanWrite(w, i) && Uploads(w.tasks[i].action) && w.tasks[i].key.path !in w.local
    ensures var k, v := w.tasks[i].key, Apply(w, Write(i, at));
      && Live(v.rows, k) && v.rows[k].localMtime == at && v.rows[k].localSize == 0
      && v.rows[k].remoteId == w.phase[i].rf.id && v.rows[k].remoteMd5 == w.phase[i].rf.md5
      && forall s :: SnapshotOf(s, v.local, v.drive, v.rows) && InChain(s.chain, k.rel) ==>
           k in s.base && OwnedTask(s, k).action == Trash
  {
  }

  /** What a merge that leaves an owned path alone has seen. */
  lemma NothingIsSeen(w0: World, s: Snapshot, k: Key)
    requires RowsOk(w0.drive, w0.rows) && SnapshotOf(s, w0.local, w0.drive, w0.rows)
    requires k in s.base && OwnedTask(s, k).action == Nothing
    ensures Live(w0.rows, k) && SameStamp(w0.local, w0.rows, k)
    ensures var id := w0.rows[k].remoteId;
      && id in w0.drive.objs && w0.drive.objs[id].place == At(k) && w0.drive.objs[id].content.Binary?
      && DigestOf(w0.drive.objs[id].content) == w0.rows[k].remoteMd5
  {
    var n := PickIndex(ListedAt(s.listing, k), Some(BaseOf(s.base[k])));
    ListedIsThere(w0, s, k, n);
    assert TrackedOk(w0.drive.objs[s.base[k].remoteId], w0.rows, k);
  }

  lemma NoTaskOf(s: Snapshot, owner: map<Path, RelId>, route: map<Path, RelId>, k: Key, t: Task)
    requires k in s.base && k.path in owner && owner[k.path] == k.rel && OwnedTask(s, k).action == Nothing
    requires Planned(s, owner, route, t)
    ensures WritesRow(t) ==> t.key != k
  {
  }

  lemma NobodyTargets(w: World, i: nat, k: Key)
    requires RowsOk(w.drive, w.rows) && k in w.rows && i < |w.tasks| && TargetOwn(w, i, k)
    requires WritesRow(w.tasks[i]) ==> w.tasks[i].key != k
    ensures Target(w.rows, w.tasks[i]) != Some(w.rows[k].remoteId)
  {
  }

  lemma RowAndObjectStay(w0: World, w: World, k: Key)
    requires Mirrors(w0, w) && RowsOk(w0.drive, w0.rows) && k in w0.rows && w0.rows[k].remoteId in w0.drive.objs
    requires forall i :: 0 <= i < |w.tasks| && WritesRow(w.tasks[i]) ==> w.tasks[i].key != k
    ensures SameRow(w0.rows, w.rows, k) && SameObject(w0.drive, w.drive, w0.rows[k].remoteId)
  {
    forall i | 0 <= i < |w.tasks| ensures Target(w0.rows, w.tasks[i]) != Some(w0.rows[k].remoteId) {
      assert TargetOwn(w0, i, k);
      NobodyTargets(w0, i, k);
    }
    Untargeted(w0, w, w0.rows[k].remoteId);
    assert Unwritten(w, k);
  }

  /** Nobody works on the row or the object of an owned path that has no task. */
  lemma NothingIsDone(w0: World, s: Snapshot, owner: map<Path, RelId>, route: map<Path, RelId>, w: World, k: Key)
    requires Planning(w0, s, owner, route) && Mirrors(w0, w)
    requires k in s.base && k.path in owner && owner[k.path] == k.rel && OwnedTask(s, k).action == Nothing
    requires w0.rows[k].remoteId in w0.drive.objs
    ensures SameRow(w0.rows, w.rows, k) && SameObject(w0.drive, w.drive, w0.rows[k].remoteId)
  {
    forall i | 0 <= i < |w.tasks| && WritesRow(w.tasks[i]) ensures w.tasks[i].key != k {
      NoTaskOf(s, owner, route, k, w.tasks[i]);
    }
    RowAndObjectStay(w0, w, k);
  }

  /** When the merge of an owned path says nothing is to be done, nothing is, and the path is in sync
      exactly when the merge was not blind. */
  lemma NothingSyncs(w0: World, s: Snapshot, owner: map<Path, RelId>, route: map<Path, RelId>, w: World, k: Key)
    requires Planning(w0, s, owner, route) && Mirrors(w0, w)
    requires k in s.base && k.path in owner && owner[k.path] == k.rel && OwnedTask(s, k).action == Nothing
    ensures InSync(w, k) <==> !Blind(w0, k)
  {
    NothingIsSeen(w0, s, k);
    NothingIsDone(w0, s, owner, route, w, k);
  }

  /** A blind merge says that nothing is to be done. */
  lemma BlindDoesNothing(w0: World, s: Snapshot, k: Key)
    requires RowsOk(w0.drive, w0.rows) && SnapshotOf(s, w0.local, w0.drive, w0.rows) && k in s.base && Blind(w0, k)
    ensures OwnedTask(s, k).action == Nothing
  {
    var m := w0.rows[k];
    var cands := ListedAt(s.listing, k);
    assert Holds(cands, m.remoteId);
    ListedIsThere(w0, s, k, PickIndex(cands, Some(BaseOf(m))));
  }

  /** The path's own task, if it has one, ran to completion. */
  ghost predicate PathDone(w: World, p: Path) {
    forall i :: 0 <= i < |w.tasks| && i < |w.phase| && w.tasks[i].key.path == p && WritesRow(w.tasks[i]) ==> w.phase[i].Done?
  }

  lemma PlannedIsSynced(w0: World, s: Snapshot, owner: map<Path, RelId>, route: map<Path, RelId>, w: World, t: Task)
    requires IsPlan(s, owner, route, w.tasks) && Planned(s, owner, route, t)
    requires Mirrors(w0, w) && PathDone(w, t.key.path)
    requires Uploads(t.action) || t.action == Adopt
    ensures InSync(w, t.key)
  {
    var i :| 0 <= i < |w.tasks| && w.tasks[i] == t;
    TaskSyncs(w0, w, i);
  }

  /** An owned path whose merge is blind. */
  ghost predicate Unseen(w0: World, s: Snapshot, owner: map<Path, RelId>, route: map<Path, RelId>, p: Path)
    requires p in s.local && !Deferred(s, owner, route, p)
  {
    p in owner && Blind(w0, Home(s, owner, route, p))
  }

  lemma OwnedInSync(w0: World, s: Snapshot, owner: map<Path, RelId>, route: map<Path, RelId>, w: World, k: Key)
    requires Planning(w0, s, owner, route) && Mirrors(w0, w) && PathDone(w, k.path)
    requires k.path in w0.local && k.path in owner && owner[k.path] == k.rel
    ensures InSync(w, k) <==> !Blind(w0, k)
  {
    if OwnedTask(s, k).action == Nothing {
      NothingSyncs(w0, s, owner, route, w, k);
    } else {
      if Blind(w0, k) { BlindDoesNothing(w0, s, k); }
      PlannedIsSynced(w0, s, owner, route, w, OwnedTask(s, k));
    }
  }

  lemma HomeInSync(w0: World, s: Snapshot, owner: map<Path, RelId>, route: map<Path, RelId>, w: World, p: Path)
    requires Planning(w0, s, owner, route) && Mirrors(w0, w)
    requires p in w0.local && !Deferred(s, owner, route, p) && PathDone(w, p)
    ensures InSync(w, Home(s, owner, route, p)) <==> !Unseen(w0, s, owner, route, p)
  {
    if p !in owner {
      PlannedIsSynced(w0, s, owner, route, w, NewTask(s, route, p).value);
    } else {
      OwnedInSync(w0, s, owner, route, w, Key(owner[p], p));
    }
  }

  /** Local Is Law, path by path, exactly. After any part of a pass, run in any order by any number
      of workers and with any other tasks failing or cancelled, a local path that was not deferred
      and whose own task completed has a live row whose tracked object is listed at that relation
      and path with exactly the local content, if and only if its merge was not blind. */
  lemma LawPathByPath(w0: World, s: Snapshot, owner: map<Path, RelId>, route: map<Path, RelId>, steps: seq<Step>)
    requires Planning(w0, s, owner, route) && Runnable(w0, steps)
    ensures forall p :: p in w0.local && !Deferred(s, owner, route, p) && PathDone(Run(w0, steps), p) ==>
              (InSync(Run(w0, steps), Home(s, owner, route, p)) <==> !Unseen(w0, s, owner, route, p))
  {
    PlanIsSound(w0, s, owner, route);
    PassMirrors(w0, steps);
    var w := Run(w0, steps);
    forall p | p in w0.local && !Deferred(s, owner, route, p) && PathDone(w, p)
      ensures InSync(w, Home(s, owner, route, p)) <==> !Unseen(w0, s, owner, route, p)
    {
      HomeInSync(w0, s, owner, route, w, p);
    }
  }

  /** Local Is Law. After a pass in which every task succeeded, every local path that was not
      deferred is in sync, but for owned paths whose row is stale and whose merge is blind. */
  lemma LocalIsLaw(d: Daemon, s: Snapshot, owner: map<Path, RelId>, route: map<Path, RelId>, steps: seq<Step>)
    requires Stamped(d) && Planning(d.w, s, owner, route)
    requires Runnable(d.w, steps) && AllDone(Run(d.w, steps))
    ensures forall p :: p in d.w.local && !Deferred(s, owner, route, p) ==>
              (InSync(Run(d.w, steps), Home(s, owner, route, p)) <==> !Unseen(d.w, s, owner, route, p))
    ensures forall p :: p in d.w.local && !Deferred(s, owner, route, p) && Home(s, owner, route, p) !in d.stale ==>
              InSync(Run(d.w, steps), Home(s, owner, route, p))
  {
    LawPathByPath(d.w, s, owner, route, steps);
    forall p | p in d.w.local && !Deferred(s, owner, route, p) && Home(s, owner, route, p) !in d.stale
      ensures !Unseen(d.w, s, owner, route, p)
    {
      if Blind(d.w, Home(s, owner, route, p)) { BlindIsStale(d, Home(s, owner, route, p)); }
    }
  }

  /** A new installation whose stamps describe the files that are there. */
  ghost predicate FreshDaemon(d: Daemon) {
    Installed(d.w) && d.stale == {} && forall p :: LocalStamped(d, p)
  }

  /** Local Is Law over whole lives: whatever passes, crashes, local and outside edits, sweeps, purges
      and restores came before, the next pass in which every task succeeds mirrors every local
      path it did not defer, but for stale rows whose merge is blind. */
  lemma LawInEveryLife(d0: Daemon, hold: map<RelId, int>, events: seq<Event>, begin: Event, steps: seq<Step>)
    requires FreshDaemon(d0) && CarefulLife(d0, hold, events)
    requires begin.Begin? && Possible(Later(d0, hold, events).w, hold, begin)
    requires var w := After(Later(d0, hold, events).w, hold, begin); Runnable(w, steps) && AllDone(Run(w, steps))
    ensures var d := Later(d0, hold, events);
      var w := After(d.w, hold, begin);
      && (forall p :: p in w.local && !Deferred(begin.s, begin.owner, begin.route, p) ==>
            (InSync(Run(w, steps), Home(begin.s, begin.owner, begin.route, p))
             <==> !Unseen(w, begin.s, begin.owner, begin.route, p)))
      && (forall p :: p in w.local && !Deferred(begin.s, begin.owner, begin.route, p) ==>
            Home(begin.s, begin.owner, begin.route, p) !in d.stale ==>
            InSync(Run(w, steps), Home(begin.s, begin.owner, begin.route, p)))
  {
    assert Stamped(d0);
    LifeStamped(d0, hold, events);
    var d := Later(d0, hold, events);
    NextStamped(d, hold, begin);
    assert Next(d, hold, begin).stale <= d.stale;
    LocalIsLaw(Next(d, hold, begin), begin.s, begin.owner, begin.route, steps);
  }

  /** Deletions: after any part of a pass, an owned path that is gone locally and whose task
      completed has a TRASHED row with the deletion time, and its object is in the relation's
      holding tank. */
  lemma DeletionsReachTheTank(w0: World, s: Snapshot, owner: map<Path, RelId>, route: map<Path, RelId>, w: World, p: Path)
    requires Planning(w0, s, owner, route) && Mirrors(w0, w)
    requires p in owner && p !in w0.local && PathDone(w, p)
    ensures var k := Key(owner[p], p);
      && k in w.rows && w.rows[k].status == Trashed && w.rows[k].deletedAt.Some?
      && w.rows[k] == w0.rows[k].(status := Trashed, deletedAt := w.rows[k].deletedAt)
      && w.rows[k].remoteId in w0.drive.objs && w.rows[k].remoteId in w.drive.objs
      && w.drive.objs[w.rows[k].remoteId].place == Tank(k.rel)
      && w.drive.objs[w.rows[k].remoteId].content == w0.drive.objs[w.rows[k].remoteId].content
  {
    var i := GoneIsTrashed(w0, s, owner, route, p);
    TrashedIsTanked(w0, w, i);
  }

  lemma GoneIsTrashed(w0: World, s: Snapshot, owner: map<Path, RelId>, route: map<Path, RelId>, p: Path) returns (i: nat)
    requires Planning(w0, s, owner, route) && p in owner && p !in w0.local
    ensures i < |w0.tasks| && w0.tasks[i].action == Trash && w0.tasks[i].key == Key(owner[p], p)
  {
    var t := OwnedTask(s, Key(owner[p], p));
    assert Planned(s, owner, route, t);
    i :| 0 <= i < |w0.tasks| && w0.tasks[i] == t;
  }

  lemma TrashedIsTanked(w0: World, w: World, i: nat)
    requires Mirrors(w0, w) && i < |w.tasks| && w.tasks[i].action == Trash && w.phase[i].Done?
    ensures var k := w.tasks[i].key;
      && k in w0.rows && k in w.rows && w.rows[k].deletedAt.Some?
      && w.rows[k] == w0.rows[k].(status := Trashed, deletedAt := w.rows[k].deletedAt)
      && w.rows[k].remoteId in w0.drive.objs && w.rows[k].remoteId in w.drive.objs
      && w.drive.objs[w.rows[k].remoteId].place == Tank(k.rel)
      && w.drive.objs[w.rows[k].remoteId].content == w0.drive.objs[w.rows[k].remoteId].content
  {
    assert TaskSoundAt(w0, i) && AnswerOk(w0, w.tasks[i], w.phase[i].rf);
  }
}
