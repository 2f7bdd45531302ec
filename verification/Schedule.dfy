/** Schedule independence: whatever order workers run the steps of a pass in, the stores
    hold at every moment exactly what the finished calls and writes say, and a completed
    pass ends where running the tasks one after another ends. */
module Schedule {
  import opened SyncTypes
  import opened PassMachine

  /** The object task i worked on, once its Drive call has returned. */
  ghost predicate Touches(w: World, i: int, id: ObjId) {
    0 <= i < |w.tasks| && i < |w.phase| && !w.phase[i].Waiting? && CallsDrive(w.tasks[i]) && w.phase[i].rf.id == id
  }

  ghost predicate Wrote(w: World, i: int, k: Key) {
    0 <= i < |w.tasks| && i < |w.phase| && w.phase[i].Done? && WritesRow(w.tasks[i]) && w.tasks[i].key == k
  }

  /** The answer task i must have got, given only the state the pass started from. */
  ghost predicate AnswerOk(w0: World, t: Task, rf: RemoteFile) {
    && (if Creates(t) then rf.id != "" && rf.id !in w0.drive.used else Target(w0.rows, t) == Some(rf.id))
    && (Uploads(t.action) ==> t.key.path in w0.local)
    && (CallsDrive(t) && !Creates(t) ==> rf.id in w0.drive.objs)
    && (if CallsDrive(t) then rf == Describe(rf.id, ObjectAfter(w0.drive, w0.local, t, rf.id))
        else t.remote.Some? && rf == RemoteFile(rf.id, 0, t.remote.value.size, t.remote.value.md5))
  }

  ghost predicate AnswersOk(w0: World, w: World) {
    forall i :: 0 <= i < |w.phase| && i < |w.tasks| && !w.phase[i].Waiting? ==> AnswerOk(w0, w.tasks[i], w.phase[i].rf)
  }

  ghost predicate CreatedApart(w: World) {
    forall i, j :: 0 <= i < j < |w.tasks| && j < |w.phase| && !w.phase[i].Waiting? && !w.phase[j].Waiting? ==>
      Creates(w.tasks[i]) ==> Creates(w.tasks[j]) ==> w.phase[i].rf.id != w.phase[j].rf.id
  }

  /** Objects that finished calls worked on are as those calls left them. */
  ghost predicate ObjectsCalled(w0: World, w: World)
    requires AnswersOk(w0, w)
  {
    forall i :: 0 <= i < |w.phase| && i < |w.tasks| && !w.phase[i].Waiting? && CallsDrive(w.tasks[i]) ==>
      var id := w.phase[i].rf.id;
      id in w.drive.objs && w.drive.objs[id] == ObjectAfter(w0.drive, w0.local, w.tasks[i], id)
  }

  ghost predicate Untouched(w: World, id: ObjId) { forall i :: !Touches(w, i, id) }

  ghost predicate SameObject(v: Drive, w: Drive, id: ObjId) {
    (id in v.objs <==> id in w.objs) && (id in v.objs ==> v.objs[id] == w.objs[id])
  }

  ghost predicate ObjectsElse(w0: World, w: World) {
    forall id :: Untouched(w, id) ==> SameObject(w0.drive, w.drive, id)
  }

  ghost predicate IdsUsed(w0: World, w: World) {
    forall id :: id in w.drive.used <==> id in w0.drive.used || !Untouched(w, id)
  }

  /** Rows that finished writes worked on are as those writes left them, and all others as before. */
  ghost predicate RowsWritten(w0: World, w: World) {
    forall i :: 0 <= i < |w.phase| && i < |w.tasks| && w.phase[i].Done? && WritesRow(w.tasks[i]) ==>
      var t := w.tasks[i];
      && (t.action == Trash ==> t.key in w0.rows)
      && t.key in w.rows
      && w.rows[t.key] == RowAfter(w0.local, w0.rows, t, w.phase[i].rf, w.phase[i].at)
  }

  ghost predicate Unwritten(w: World, k: Key) { forall i :: !Wrote(w, i, k) }

  ghost predicate SameRow(v: Rows, w: Rows, k: Key) {
    (k in v <==> k in w) && (k in v ==> v[k] == w[k])
  }

  ghost predicate RowsElse(w0: World, w: World) {
    forall k :: Unwritten(w, k) ==> SameRow(w0.rows, w.rows, k)
  }

  /** w is what the finished steps recorded in its phases make of w0, whatever their order. */
  ghost predicate Mirrors(w0: World, w: World) {
    && Sound(w0)
    && w.local == w0.local && w.tasks == w0.tasks && |w.phase| == |w0.tasks|
    && AnswersOk(w0, w)
    && CreatedApart(w)
    && ObjectsCalled(w0, w) && ObjectsElse(w0, w) && IdsUsed(w0, w)
    && RowsWritten(w0, w) && RowsElse(w0, w)
  }

  lemma StartMirrors(w0: World)
    requires Sound(w0) && AllWaiting(w0)
    ensures Mirrors(w0, w0)
  {
  }

  /** An object a task is about to work on is still as the pass found it. */
  lemma TargetUntouched(w0: World, w: World, i: nat, id: ObjId)
    requires Mirrors(w0, w) && i < |w.tasks| && w.phase[i].Waiting?
    requires if Creates(w.tasks[i]) then id !in w.drive.used else Target(w0.rows, w.tasks[i]) == Some(id)
    ensures Untouched(w, id)
  {
    forall j ensures !Touches(w, j, id) {
      if 0 <= j < |w.phase| && !w.phase[j].Waiting? && CallsDrive(w.tasks[j]) {
        assert Apart(w0, i, j) && TaskSoundAt(w0, j);
        assert AnswerOk(w0, w.tasks[j], w.phase[j].rf);
        assert TaskSoundAt(w0, i);
        assert Touches(w, j, w.phase[j].rf.id);
      }
    }
  }

  lemma RowUntouched(w0: World, w: World, i: nat)
    requires Mirrors(w0, w) && i < |w.tasks| && !w.phase[i].Done? && WritesRow(w.tasks[i])
    ensures Unwritten(w, w.tasks[i].key)
  {
    forall j ensures !Wrote(w, j, w.tasks[i].key) { assert Apart(w0, i, j); }
  }

  lemma CallAnswers(w0: World, w: World, i: nat, id: ObjId)
    requires Mirrors(w0, w) && CanCall(w, i, id)
    ensures AnswerOk(w0, w.tasks[i], Answer(w, i, id)) && Answer(w, i, id).id == id
    ensures CallsDrive(w.tasks[i]) ==> DriveAfter(w, i, id).objs[id] == ObjectAfter(w0.drive, w0.local, w.tasks[i], id)
    ensures Untouched(w, id)
  {
    var t := w.tasks[i];
    assert TaskSoundAt(w0, i);
    if t.action == Trash {
      RowUntouched(w0, w, i);
    }
    TargetUntouched(w0, w, i, id);
    assert SameObject(w0.drive, w.drive, id);
  }

  lemma CallKeepsAnswers(w0: World, w: World, i: nat, id: ObjId)
    requires Mirrors(w0, w) && CanCall(w, i, id)
    ensures var v := Apply(w, Call(i, id)); AnswersOk(w0, v) && ObjectsCalled(w0, v) && CreatedApart(v)
  {
    var v := Apply(w, Call(i, id));
    CallAnswers(w0, w, i, id);
    forall j | 0 <= j < |v.phase| && !v.phase[j].Waiting?
      ensures AnswerOk(w0, v.tasks[j], v.phase[j].rf)
      ensures j != i && CallsDrive(v.tasks[j]) ==> v.phase[j].rf.id != id
    {
      if j != i {
        assert AnswerOk(w0, w.tasks[j], w.phase[j].rf);
        assert CallsDrive(w.tasks[j]) ==> Touches(w, j, w.phase[j].rf.id);
      }
    }
  }

  lemma CallTouches(w: World, i: nat, id: ObjId)
    requires CanCall(w, i, id)
    ensures forall j, x :: Touches(Apply(w, Call(i, id)), j, x) <==>
                           Touches(w, j, x) || (j == i && x == id && CallsDrive(w.tasks[i]))
    ensures forall j, k :: Wrote(Apply(w, Call(i, id)), j, k) <==> Wrote(w, j, k)
  {
  }

  lemma CallKeepsElse(w0: World, w: World, i: nat, id: ObjId)
    requires Mirrors(w0, w) && CanCall(w, i, id)
    ensures ObjectsElse(w0, Apply(w, Call(i, id)))
  {
    var v := Apply(w, Call(i, id));
    CallTouches(w, i, id);
    forall x | Untouched(v, x) ensures SameObject(w0.drive, v.drive, x) {
      assert !Touches(v, i, x);
      assert Untouched(w, x);
    }
  }

  lemma CallKeepsUsed(w0: World, w: World, i: nat, id: ObjId)
    requires Mirrors(w0, w) && CanCall(w, i, id)
    ensures IdsUsed(w0, Apply(w, Call(i, id)))
  {
    var v := Apply(w, Call(i, id));
    CallTouches(w, i, id);
    forall x
      ensures !Untouched(v, x) <==> !Untouched(w, x) || (x == id && CallsDrive(w.tasks[i]))
    {
      if x == id && CallsDrive(w.tasks[i]) { assert Touches(v, i, x); }
      if j :| Touches(w, j, x) { assert Touches(v, j, x); }
    }
  }

  lemma CallMirrors(w0: World, w: World, i: nat, id: ObjId)
    requires Mirrors(w0, w) && CanCall(w, i, id)
    ensures Mirrors(w0, Apply(w, Call(i, id)))
  {
    var v := Apply(w, Call(i, id));
    CallKeepsAnswers(w0, w, i, id);
    CallKeepsElse(w0, w, i, id);
    CallKeepsUsed(w0, w, i, id);
    CallTouches(w, i, id);
    assert RowsElse(w0, v) by {
      forall k | Unwritten(v, k) ensures SameRow(w0.rows, v.rows, k) { assert Unwritten(w, k); }
    }
  }

  lemma WriteTouches(w: World, i: nat, at: Time)
    requires CanWrite(w, i)
    ensures forall j, x :: Touches(Apply(w, Write(i, at)), j, x) <==> Touches(w, j, x)
    ensures forall x :: Untouched(Apply(w, Write(i, at)), x) <==> Untouched(w, x)
    ensures forall j, k :: Wrote(Apply(w, Write(i, at)), j, k) <==>
                           Wrote(w, j, k) || (j == i && k == w.tasks[i].key && WritesRow(w.tasks[i]))
  {
    var v := Apply(w, Write(i, at));
    assert forall j, x :: Touches(v, j, x) <==> Touches(w, j, x);
  }

  lemma WriteKeepsRows(w0: World, w: World, i: nat, at: Time)
    requires Mirrors(w0, w) && CanWrite(w, i)
    ensures RowsWritten(w0, Apply(w, Write(i, at))) && RowsElse(w0, Apply(w, Write(i, at)))
  {
    var v := Apply(w, Write(i, at));
    var t := w.tasks[i];
    WriteTouches(w, i, at);
    if WritesRow(t) {
      RowUntouched(w0, w, i);
      assert SameRow(w0.rows, w.rows, t.key);
    }
    forall j | 0 <= j < |v.phase| && v.phase[j].Done? && WritesRow(v.tasks[j])
      ensures j != i ==> w.phase[j].Done? && (WritesRow(t) ==> v.tasks[j].key != t.key)
    {
      assert Apart(w0, i, j);
    }
    forall k | Unwritten(v, k) ensures SameRow(w0.rows, v.rows, k) {
      assert !Wrote(v, i, k);
      assert Unwritten(w, k);
    }
  }

  lemma WriteMirrors(w0: World, w: World, i: nat, at: Time)
    requires Mirrors(w0, w) && CanWrite(w, i)
    ensures Mirrors(w0, Apply(w, Write(i, at)))
  {
    WriteTouches(w, i, at);
    WriteKeepsRows(w0, w, i, at);
  }

  lemma RunMirrors(w0: World, w: World, steps: seq<Step>)
    requires Mirrors(w0, w) && Runnable(w, steps)
    ensures Mirrors(w0, Run(w, steps))
    decreases |steps|
  {
    if steps != [] {
      match steps[0] {
        case Call(i, id) => CallMirrors(w0, w, i, id);
        case Write(i, at) => WriteMirrors(w0, w, i, at);
      }
      RunMirrors(w0, Apply(w, steps[0]), steps[1..]);
    }
  }

  lemma SameObjects(v: Drive, w: Drive)
    requires forall id :: SameObject(v, w, id)
    ensures v.objs == w.objs
  {
    forall id ensures id in v.objs <==> id in w.objs { assert SameObject(v, w, id); }
    forall id | id in v.objs ensures v.objs[id] == w.objs[id] { assert SameObject(v, w, id); }
  }

  lemma SameRows(v: Rows, w: Rows)
    requires forall k :: SameRow(v, w, k)
    ensures v == w
  {
    forall k ensures k in v <==> k in w { assert SameRow(v, w, k); }
    forall k | k in v ensures v[k] == w[k] { assert SameRow(v, w, k); }
  }

  /** The stores are a function of the starting point and of which steps have finished. */
  lemma MirrorsDetermines(w0: World, v: World, w: World)
    requires Mirrors(w0, v) && Mirrors(w0, w) && v.phase == w.phase
    ensures v == w
  {
    assert forall i, id :: Touches(v, i, id) <==> Touches(w, i, id);
    assert forall i, k :: Wrote(v, i, k) <==> Wrote(w, i, k);
    forall id ensures SameObject(v.drive, w.drive, id) {
      if i :| Touches(v, i, id) {
        assert Touches(w, i, id);
      } else {
        assert Untouched(v, id) && Untouched(w, id);
      }
    }
    SameObjects(v.drive, w.drive);
    assert forall id :: Untouched(v, id) <==> Untouched(w, id);
    assert v.drive.used == w.drive.used;
    forall k ensures SameRow(v.rows, w.rows, k) {
      if i :| Wrote(v, i, k) {
        assert Wrote(w, i, k);
      } else {
        assert Unwritten(v, k) && Unwritten(w, k);
      }
    }
    SameRows(v.rows, w.rows);
  }

  // ---- the sequential schedule ----

  /** Running the first n tasks one after another, with the IDs and clock readings of phase. */
  function InOrder(phase: seq<Phase>, n: nat): seq<Step>
    requires n <= |phase|
    requires forall i :: 0 <= i < |phase| ==> phase[i].Done?
  {
    if n == 0 then []
    else InOrder(phase, n - 1) + [Call(n - 1, phase[n - 1].rf.id), Write(n - 1, phase[n - 1].at)]
  }

  lemma RunConcat(w: World, a: seq<Step>, b: seq<Step>)
    requires Runnable(w, a) && Runnable(Run(w, a), b)
    ensures Runnable(w, a + b) && Run(w, a + b) == Run(Run(w, a), b)
    decreases |a|
  {
    if a == [] {
      assert a + b == b;
    } else {
      assert (a + b)[1..] == a[1..] + b;
      RunConcat(Apply(w, a[0]), a[1..], b);
    }
  }

  lemma RunTwoMore(w: World, steps: seq<Step>, a: Step, b: Step)
    requires Runnable(w, steps) && Enabled(Run(w, steps), a) && Enabled(Apply(Run(w, steps), a), b)
    ensures Runnable(w, steps + [a, b]) && Run(w, steps + [a, b]) == Apply(Apply(Run(w, steps), a), b)
  {
    var u := Apply(Run(w, steps), a);
    assert [a, b][1..] == [b] && [b][1..] == [];
    assert Run(u, [b]) == Run(Apply(u, b), []);
    RunConcat(w, steps, [a, b]);
  }

  /** The first n tasks of a finished pass are done exactly as that pass did them, the rest wait. */
  ghost predicate Prefix(v: World, w: World, n: nat) {
    && |v.phase| == |w.phase| && n <= |w.phase|
    && v.phase[..n] == w.phase[..n]
    && forall i :: n <= i < |v.phase| ==> v.phase[i].Waiting?
  }

  /** A task that could be called in some order can be called when its turn comes. */
  lemma NextCanCall(w0: World, w: World, v: World, n: nat)
    requires Mirrors(w0, w) && AllDone(w) && Mirrors(w0, v) && Prefix(v, w, n) && n < |w.phase|
    ensures CanCall(v, n, w.phase[n].rf.id)
    ensures Answer(v, n, w.phase[n].rf.id) == w.phase[n].rf
  {
    var t, rf := w.tasks[n], w.phase[n].rf;
    assert AnswerOk(w0, t, rf);
    assert TaskSoundAt(w0, n);
    if Creates(t) {
      forall j ensures !Touches(v, j, rf.id) {
        if 0 <= j < n {
          assert v.phase[j] == w.phase[j];
          assert AnswerOk(w0, w.tasks[j], w.phase[j].rf);
        }
      }
      assert Untouched(v, rf.id);
    } else {
      TargetUntouched(w0, v, n, rf.id);
      assert SameObject(w0.drive, v.drive, rf.id);
      if t.action == Trash {
        RowUntouched(w0, v, n);
        assert SameRow(w0.rows, v.rows, t.key);
      }
    }
  }

  lemma NextInOrder(w0: World, w: World, v: World, n: nat) returns (u: World)
    requires Mirrors(w0, w) && AllDone(w) && Mirrors(w0, v) && Prefix(v, w, n) && n < |w.phase|
    ensures Enabled(v, Call(n, w.phase[n].rf.id))
    ensures Enabled(Apply(v, Call(n, w.phase[n].rf.id)), Write(n, w.phase[n].at))
    ensures u == Apply(Apply(v, Call(n, w.phase[n].rf.id)), Write(n, w.phase[n].at))
    ensures Mirrors(w0, u) && Prefix(u, w, n + 1)
  {
    var id, at := w.phase[n].rf.id, w.phase[n].at;
    NextCanCall(w0, w, v, n);
    CallMirrors(w0, v, n, id);
    var c := Apply(v, Call(n, id));
    assert TaskSoundAt(w0, n);
    if w.tasks[n].action == Trash {
      RowUntouched(w0, c, n);
      assert SameRow(w0.rows, c.rows, w.tasks[n].key);
    }
    WriteMirrors(w0, c, n, at);
    u := Apply(c, Write(n, at));
  }

  lemma PrefixInOrder(w0: World, w: World, n: nat) returns (v: World)
    requires AllWaiting(w0) && Mirrors(w0, w) && AllDone(w) && n <= |w.phase|
    ensures Runnable(w0, InOrder(w.phase, n)) && Run(w0, InOrder(w.phase, n)) == v
    ensures Mirrors(w0, v) && Prefix(v, w, n)
  {
    if n == 0 {
      StartMirrors(w0);
      v := w0;
    } else {
      var u := PrefixInOrder(w0, w, n - 1);
      v := NextInOrder(w0, w, u, n - 1);
      RunTwoMore(w0, InOrder(w.phase, n - 1), Call(n - 1, w.phase[n - 1].rf.id), Write(n - 1, w.phase[n - 1].at));
    }
  }

  /** Any run of a pass's steps, complete or cut short. */
  lemma PassMirrors(w0: World, steps: seq<Step>)
    requires Sound(w0) && AllWaiting(w0) && Runnable(w0, steps)
    ensures Mirrors(w0, Run(w0, steps))
  {
    StartMirrors(w0);
    RunMirrors(w0, w0, steps);
  }

  lemma PrefixIsAll(v: World, w: World)
    requires Prefix(v, w, |w.phase|)
    ensures v.phase == w.phase
  {
    assert v.phase[..|v.phase|] == v.phase && w.phase[..|w.phase|] == w.phase;
  }

  lemma FinishedInOrder(w0: World, w: World)
    requires AllWaiting(w0) && Mirrors(w0, w) && AllDone(w)
    ensures Runnable(w0, InOrder(w.phase, |w.phase|)) && Run(w0, InOrder(w.phase, |w.phase|)) == w
  {
    var v := PrefixInOrder(w0, w, |w.phase|);
    PrefixIsAll(v, w);
    MirrorsDetermines(w0, v, w);
  }

  /** Every interleaving of a completed pass, by any number of workers, ends in exactly the
      world that running its tasks in sequence ends in, given the same fresh IDs and clocks. */
  lemma ScheduleIndependence(w0: World, steps: seq<Step>)
    requires Sound(w0) && AllWaiting(w0) && Runnable(w0, steps) && AllDone(Run(w0, steps))
    ensures var w := Run(w0, steps);
      Runnable(w0, InOrder(w.phase, |w.phase|)) && Run(w0, InOrder(w.phase, |w.phase|)) == w
  {
    PassMirrors(w0, steps);
    FinishedInOrder(w0, Run(w0, steps));
  }

  // ---- two runs of one pass ----

  /** Task i in two finished runs: the same answer, object and row, but for the ID of an object it
      created and the time of a trashing. */
  ghost predicate SameEffect(v: World, w: World, i: int)
    requires 0 <= i < |v.tasks| == |v.phase| == |w.tasks| == |w.phase| && AllDone(v) && AllDone(w)
  {
    var t, x, y := v.tasks[i], v.phase[i].rf, w.phase[i].rf;
    && y == x.(id := y.id) && (!Creates(t) ==> x == y)
    && (CallsDrive(t) ==> x.id in v.drive.objs && y.id in w.drive.objs && v.drive.objs[x.id] == w.drive.objs[y.id])
    && (WritesRow(t) ==>
          && t.key in v.rows && t.key in w.rows
          && w.rows[t.key] == v.rows[t.key].(remoteId := w.rows[t.key].remoteId, deletedAt := w.rows[t.key].deletedAt)
          && (t.action == Trash || !Creates(t) ==> w.rows[t.key].remoteId == v.rows[t.key].remoteId)
          && (t.action != Trash ==> w.rows[t.key].remoteId == y.id && w.rows[t.key].deletedAt == None == v.rows[t.key].deletedAt))
  }

  lemma TaskAgrees(w0: World, v: World, w: World, i: nat)
    requires Mirrors(w0, v) && Mirrors(w0, w) && AllDone(v) && AllDone(w) && i < |w0.tasks|
    ensures SameEffect(v, w, i)
  {
    assert AnswerOk(w0, v.tasks[i], v.phase[i].rf) && AnswerOk(w0, w.tasks[i], w.phase[i].rf);
    assert TaskSoundAt(w0, i);
  }

  /** Two completed runs of the same pass end alike, whatever their interleavings, fresh IDs and clock
      readings: every task has the same effect up to the ID it created and the time of its
      trashing, no two created objects share an ID, and everything else is equal. */
  lemma RunsAgree(w0: World, v: World, w: World)
    requires Mirrors(w0, v) && Mirrors(w0, w) && AllDone(v) && AllDone(w)
    ensures forall i :: 0 <= i < |w0.tasks| ==> SameEffect(v, w, i)
    ensures CreatedApart(v) && CreatedApart(w)
    ensures forall id :: id in w0.drive.used ==> SameObject(v.drive, w.drive, id)
    ensures forall k :: (forall i :: 0 <= i < |w0.tasks| && WritesRow(w0.tasks[i]) ==> w0.tasks[i].key != k) ==> SameRow(v.rows, w.rows, k)
  {
    forall i | 0 <= i < |w0.tasks| ensures SameEffect(v, w, i) { TaskAgrees(w0, v, w, i); }
    forall id | id in w0.drive.used ensures SameObject(v.drive, w.drive, id) { OldObjectAgrees(w0, v, w, id); }
    forall k | forall i :: 0 <= i < |w0.tasks| && WritesRow(w0.tasks[i]) ==> w0.tasks[i].key != k
      ensures SameRow(v.rows, w.rows, k)
    {
      assert Unwritten(v, k) && Unwritten(w, k);
    }
  }

  /** A task touches an object that was there when it was not its own creation. */
  lemma TouchedInBoth(w0: World, v: World, w: World, i: int, id: ObjId)
    requires Mirrors(w0, v) && Mirrors(w0, w) && AllDone(v) && AllDone(w) && id in w0.drive.used
    requires Touches(v, i, id)
    ensures Touches(w, i, id) && id in v.drive.objs && id in w.drive.objs && v.drive.objs[id] == w.drive.objs[id]
  {
    assert AnswerOk(w0, v.tasks[i], v.phase[i].rf) && AnswerOk(w0, w.tasks[i], w.phase[i].rf);
  }

  lemma OldObjectAgrees(w0: World, v: World, w: World, id: ObjId)
    requires Mirrors(w0, v) && Mirrors(w0, w) && AllDone(v) && AllDone(w) && id in w0.drive.used
    ensures SameObject(v.drive, w.drive, id)
  {
    if i :| Touches(v, i, id) {
      TouchedInBoth(w0, v, w, i, id);
    } else if i :| Touches(w, i, id) {
      TouchedInBoth(w0, w, v, i, id);
    } else {
      assert Untouched(v, id) && Untouched(w, id);
    }
  }
}
