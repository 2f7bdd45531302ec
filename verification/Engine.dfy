/** core/sync/engine.go: the executor's task handlers and SyncChain, on the stores themselves. */
module Engine {
  import opened SyncTypes
  import opened PlanSpec
  import opened PassMachine
  import opened PlanSound
  import opened Schedule
  import opened Runs
  import opened Stamps
  import opened MirrorLaw
  import opened Limits
  import opened Ownership
  import opened StateStore
  import opened Routing
  import opened Planner
  import opened Retention

  /** The tasks a handler returns from without doing anything. A row without an object is left
      as it is, although the source's comment says it is forgotten. */
  predicate Unmirrored(w: World, t: Task) {
    match t.action
    case Trash => t.key !in w.rows || w.rows[t.key].remoteId == ""
    case Dedupe => t.remote.None?
    case Nothing => true
    case _ => false
  }

  /** A trash task's object is still there. */
  ghost predicate Trashable(w0: World, t: Task) {
    t.action == Trash ==> t.key in w0.rows && w0.rows[t.key].remoteId in w0.drive.objs
  }

  /** When its turn comes, a task of a sound pass has something to do, and can do it. */
  lemma TurnIsMirrored(w0: World, w: World, i: nat)
    requires Mirrors(w0, w) && i < |w.tasks| && w.phase[i].Waiting?
    ensures !Unmirrored(w, w.tasks[i])
    ensures w.tasks[i].action == Adopt ==> w.tasks[i].key.path in w.local
    ensures Trashable(w0, w.tasks[i]) <==> exists x :: CanCall(w, i, x)
  {
    var t := w.tasks[i];
    assert TaskSoundAt(w0, i);
    if t.action == Trash {
      RowUntouched(w0, w, i);
      assert SameRow(w0.rows, w.rows, t.key);
      if Trashable(w0, t) { TrashableCanCall(w0, w, i); }
      if x :| CanCall(w, i, x) { CalledIsTrashable(w0, w, i, x); }
    } else if t.remote.Some? {
      ListedCanCall(w0, w, i);
    } else {
      var id := NewId(w.drive.used, "n");
      assert CanCall(w, i, id);
    }
  }

  lemma CalledIsTrashable(w0: World, w: World, i: nat, x: ObjId)
    requires Mirrors(w0, w) && CanCall(w, i, x) && w.tasks[i].action == Trash && SameRow(w0.rows, w.rows, w.tasks[i].key)
    ensures Trashable(w0, w.tasks[i])
  {
    TargetUntouched(w0, w, i, x);
    assert SameObject(w0.drive, w.drive, x);
  }

  datatype Outcome = Finished | NothingMirrored | Failed

  class DriveExecutor {
    const store: Store
    const cloud: Cloud
    const local: LocalTree
    const targets: map<RelId, Account>
    const clients: set<Account>

    constructor (s: Store, c: Cloud, l: LocalTree, t: map<RelId, Account>, cl: set<Account>)
      ensures store == s && cloud == c && local == l && targets == t && clients == cl
    {
      store, cloud, local, targets, clients := s, c, l, t, cl;
    }

    predicate Resolves(rel: RelId) { rel in targets && targets[rel] in clients }

    /** The world w is what the stores hold now, and its i-th task waits. */
    ghost predicate At(w: World, i: nat)
      reads store, cloud
    {
      && WellFormed(w) && i < |w.tasks| && w.phase[i].Waiting?
      && w.local == local && w.drive == cloud.drive && w.rows == store.rows
    }

    ghost predicate Holds(w: World)
      reads store, cloud
    {
      w.local == local && w.drive == cloud.drive && w.rows == store.rows
    }

    /** v is a world some prefix of the task's two steps leads to from w. */
    ghost predicate Stepped(w: World, i: nat, v: World, at: Time, r: Outcome, id: ObjId) {
      if v == w then r != Finished
      else
        && CanCall(w, i, id)
        && var c := Apply(w, Call(i, id));
           if v == c then r == Failed else CanWrite(c, i) && v == Apply(c, Write(i, at)) && r == Finished
    }

    /** The stores let the task's Drive call succeed. */
    ghost predicate Allowed(w: World, i: nat) { exists x :: CanCall(w, i, x) }

    /** The same with a local tree that was changed to later between the two steps. */
    ghost predicate SteppedAmidEdits(w: World, i: nat, v: World, later: LocalTree, at: Time, r: Outcome, id: ObjId) {
      if v == w then r != Finished
      else
        && CanCall(w, i, id)
        && var c := Apply(w, Call(i, id)).(local := later);
           if v == c then r == Failed else CanWrite(c, i) && v == Apply(c, Write(i, at)) && r == Finished
    }

    /** upload: create or update the object, then record what Drive answered, with the stamp that the file,
        if it is still there, has by then. */
    method UploadFile(ghost w: World, i: nat, t: Task, later: LocalTree, at: Time, callFails: bool, writeFails: bool)
      returns (r: Outcome, ghost v: World, ghost id: ObjId)
      requires At(w, i) && t == w.tasks[i] && Uploads(t.action)
      modifies cloud`drive, store`rows
      ensures v.drive == cloud.drive && v.rows == store.rows && SteppedAmidEdits(w, i, v, later, at, r, id)
      ensures r != NothingMirrored
      ensures r == Finished <==> Resolves(t.key.rel) && !callFails && !writeFails && Allowed(w, i)
    {
      v, id := w, "";
      if !Resolves(t.key.rel) || t.key.path !in local || callFails { return Failed, v, id; }
      var existing := if t.remote.Some? then t.remote.value.id else "";
      var rf: RemoteFile;
      if t.remote.Some? {
        if existing !in cloud.drive.objs { return Failed, v, id; }  // deleted since it was listed
        var o := Uploaded(cloud.drive.objs[existing], local[t.key.path].bytes);
        cloud.drive := Drive(cloud.drive.objs[existing := o], cloud.drive.used + {existing});
        id := existing;
        rf := Describe(existing, o);
      } else {
        var created := NewId(cloud.drive.used, "n");
        var o := Obj(Place.At(t.key), Binary(local[t.key.path].bytes), 1);
        cloud.drive := Drive(cloud.drive.objs[created := o], cloud.drive.used + {created});
        id := created;
        rf := Describe(created, o);
      }
      v := Apply(w, Call(i, id)).(local := later);
      assert v.phase[i] == Called(rf);
      if writeFails { return Failed, v, id; }
      var fi := StatAt(later, t.key.path);
      var stat := if fi.Some? then fi.value else LocalState(at, 0);
      store.UpsertFile(t.key, FileMeta(stat.mtime, stat.size, rf.id, rf.version, rf.md5,
                                       if t.action == Conflict then Conflicted else Synced, None));
      v := Apply(v, Write(i, at));
      r := Finished;
    }

    method MoveToTank(id: ObjId, rel: RelId, down: bool) returns (ok: bool)
      modifies cloud`drive
      ensures ok <==> !down && id in old(cloud.drive).objs
      ensures ok ==> cloud.drive == Drive(old(cloud.drive).objs[id := Moved(old(cloud.drive).objs[id], Tank(rel))], old(cloud.drive).used + {id})
      ensures !ok ==> cloud.drive == old(cloud.drive)
    {
      if down || id !in cloud.drive.objs { return false; }
      cloud.drive := Drive(cloud.drive.objs[id := Moved(cloud.drive.objs[id], Tank(rel))], cloud.drive.used + {id});
      return true;
    }

    /** trash: reparent the row's object into the holding tank, then stamp the row. */
    method TrashFile(ghost w: World, i: nat, t: Task, at: Time, callFails: bool, writeFails: bool)
      returns (r: Outcome, ghost v: World, ghost id: ObjId)
      requires At(w, i) && t == w.tasks[i] && t.action == Trash
      modifies cloud`drive, store`rows
      ensures Holds(v) && Stepped(w, i, v, at, r, id)
      ensures r == NothingMirrored <==> Resolves(t.key.rel) && Unmirrored(w, t)
      ensures r == Finished <==> Resolves(t.key.rel) && !callFails && !writeFails && !Unmirrored(w, t) && Allowed(w, i)
    {
      v, id := w, "";
      if !Resolves(t.key.rel) { return Failed, v, id; }
      var meta := store.GetFile(t.key);
      if meta.None? || meta.value.remoteId == "" { return NothingMirrored, v, id; }
      var ok := MoveToTank(meta.value.remoteId, t.key.rel, callFails);
      if !ok { return Failed, v, id; }
      id := meta.value.remoteId;
      v := Apply(w, Call(i, id));
      if writeFails { return Failed, v, id; }
      store.MarkTrashed(t.key, at);
      v := Apply(v, Write(i, at));
      r := Finished;
    }

    /** dedupe: move the redundant copy into the holding tank; no row changes. */
    method DedupeFile(ghost w: World, i: nat, t: Task, at: Time, callFails: bool)
      returns (r: Outcome, ghost v: World, ghost id: ObjId)
      requires At(w, i) && t == w.tasks[i] && t.action == Dedupe
      modifies cloud`drive
      ensures Holds(v) && Stepped(w, i, v, at, r, id)
      ensures r == NothingMirrored <==> Resolves(t.key.rel) && Unmirrored(w, t)
      ensures r == Finished <==> Resolves(t.key.rel) && !callFails && Allowed(w, i)
    {
      v, id := w, "";
      if !Resolves(t.key.rel) { return Failed, v, id; }
      if t.remote.None? { return NothingMirrored, v, id; }
      var ok := MoveToTank(t.remote.value.id, t.key.rel, callFails);
      if !ok { return Failed, v, id; }
      id := t.remote.value.id;
      v := Apply(Apply(w, Call(i, id)), Write(i, at));
      r := Finished;
    }

    /** adopt: record the identical remote file; no bytes are transferred. */
    method AdoptFile(ghost w: World, i: nat, t: Task, at: Time, writeFails: bool)
      returns (r: Outcome, ghost v: World, ghost id: ObjId)
      requires At(w, i) && t == w.tasks[i] && t.action == Adopt
      modifies store`rows
      ensures Holds(v) && Stepped(w, i, v, at, r, id)
      ensures r != NothingMirrored
      ensures r == Finished <==> Resolves(t.key.rel) && t.key.path in local && !writeFails && Allowed(w, i)
    {
      v, id := w, "";
      if !Resolves(t.key.rel) || t.remote.None? { return Failed, v, id; }
      var fi := StatAt(local, t.key.path);
      if fi.None? || writeFails { return Failed, v, id; }
      store.UpsertFile(t.key, FileMeta(fi.value.mtime, fi.value.size, t.remote.value.id, 0, t.remote.value.md5, Synced, None));
      id := t.remote.value.id;
      v := Apply(Apply(w, Call(i, id)), Write(i, at));
      r := Finished;
    }

    method Execute(ghost w: World, i: nat, t: Task, at: Time, callFails: bool, writeFails: bool)
      returns (r: Outcome, ghost v: World, ghost id: ObjId)
      requires At(w, i) && t == w.tasks[i]
      modifies cloud`drive, store`rows
      ensures Holds(v) && Stepped(w, i, v, at, r, id)
      ensures r == NothingMirrored ==> Unmirrored(w, t)
      // Adoption makes no Drive call, and a dedupe writes no row.
      ensures r == Finished <==>
                && Resolves(t.key.rel) && (t.action != Adopt ==> !callFails) && (t.action != Dedupe ==> !writeFails)
                && (t.action == Adopt ==> t.key.path in local) && !Unmirrored(w, t) && Allowed(w, i)
    {
      match t.action {
        case Upload => r, v, id := UploadFile(w, i, t, local, at, callFails, writeFails);
        case Reupload => r, v, id := UploadFile(w, i, t, local, at, callFails, writeFails);
        case Conflict => r, v, id := UploadFile(w, i, t, local, at, callFails, writeFails);
        case Trash => r, v, id := TrashFile(w, i, t, at, callFails, writeFails);
        case Dedupe => r, v, id := DedupeFile(w, i, t, at, callFails);
        case Adopt => r, v, id := AdoptFile(w, i, t, at, writeFails);
        case Nothing => r, v, id := NothingMirrored, w, "";
      }
    }
  }

  // ---- listing and base state ----

  /** cands are different objects among seen, as they are at position k. */
  ghost predicate CandidatesAt(drive: Drive, seen: set<ObjId>, k: Key, cands: seq<RemoteFile>) {
    && (forall i :: 0 <= i < |cands| ==>
          var f := cands[i];
          f.id in seen && f.id in drive.objs && drive.objs[f.id].place == At(k) && f == Describe(f.id, drive.objs[f.id]))
    && (forall i, j :: 0 <= i < j < |cands| ==> cands[i].id != cands[j].id)
  }

  /** The listing once the objects in seen have been entered. */
  ghost predicate ListedSoFar(chain: seq<FolderTarget>, drive: Drive, seen: set<ObjId>, listing: Listing) {
    && (forall k :: k in listing ==> InChain(chain, k.rel))
    && (forall k :: CandidatesAt(drive, seen, k, ListedAt(listing, k)))
    && (forall id :: id in seen ==> Entered(chain, drive, listing, id))
  }

  ghost predicate Entered(chain: seq<FolderTarget>, drive: Drive, listing: Listing, id: ObjId) {
    id in drive.objs && drive.objs[id].place.At? && InChain(chain, drive.objs[id].place.key.rel) ==>
      PlanSpec.Holds(ListedAt(listing, drive.objs[id].place.key), id)
  }

  lemma EnterObject(chain: seq<FolderTarget>, drive: Drive, seen: set<ObjId>, listing: Listing, id: ObjId)
    requires ListedSoFar(chain, drive, seen, listing) && id !in seen
    requires id in drive.objs && drive.objs[id].place.At? && InChain(chain, drive.objs[id].place.key.rel)
    ensures var k := drive.objs[id].place.key;
      ListedSoFar(chain, drive, seen + {id}, listing[k := ListedAt(listing, k) + [Describe(id, drive.objs[id])]])
  {
    var k := drive.objs[id].place.key;
    var now := listing[k := ListedAt(listing, k) + [Describe(id, drive.objs[id])]];
    forall l ensures CandidatesAt(drive, seen + {id}, l, ListedAt(now, l)) && ListedAt(listing, l) <= ListedAt(now, l) {
      assert CandidatesAt(drive, seen, l, ListedAt(listing, l));
      if l == k { OneMoreCandidate(drive, seen, k, ListedAt(listing, k), id); }
    }
    assert ListedAt(now, k)[|ListedAt(listing, k)|].id == id;
    forall x | x in seen + {id} ensures Entered(chain, drive, now, x) {
      if x in seen { StaysEntered(chain, drive, listing, now, x); }
    }
  }

  lemma PassObject(chain: seq<FolderTarget>, drive: Drive, seen: set<ObjId>, listing: Listing, id: ObjId)
    requires ListedSoFar(chain, drive, seen, listing) && id in drive.objs
    requires !(drive.objs[id].place.At? && InChain(chain, drive.objs[id].place.key.rel))
    ensures ListedSoFar(chain, drive, seen + {id}, listing)
  {
    forall k ensures CandidatesAt(drive, seen + {id}, k, ListedAt(listing, k)) {
      assert CandidatesAt(drive, seen, k, ListedAt(listing, k));
    }
    assert Entered(chain, drive, listing, id);
  }

  lemma ListedAll(chain: seq<FolderTarget>, drive: Drive, listing: Listing)
    requires ListedSoFar(chain, drive, drive.objs.Keys, listing)
    ensures ListingOf(chain, drive, listing)
  {
    forall k ensures CandidatesAt(drive, drive.objs.Keys, k, ListedAt(listing, k)) {}
    forall id | id in drive.objs ensures Entered(chain, drive, listing, id) {}
  }

  lemma OneMoreCandidate(drive: Drive, seen: set<ObjId>, k: Key, cands: seq<RemoteFile>, id: ObjId)
    requires CandidatesAt(drive, seen, k, cands) && id !in seen && id in drive.objs && drive.objs[id].place == At(k)
    ensures CandidatesAt(drive, seen + {id}, k, cands + [Describe(id, drive.objs[id])])
  {
  }

  lemma StaysEntered(chain: seq<FolderTarget>, drive: Drive, listing: Listing, longer: Listing, x: ObjId)
    requires Entered(chain, drive, listing, x) && forall k :: ListedAt(listing, k) <= ListedAt(longer, k)
    ensures Entered(chain, drive, longer, x)
  {
    if x in drive.objs && drive.objs[x].place.At? && InChain(chain, drive.objs[x].place.key.rel) {
      var l := drive.objs[x].place.key;
      var i :| 0 <= i < |ListedAt(listing, l)| && ListedAt(listing, l)[i].id == x;
      assert ListedAt(longer, l)[i].id == x;
    }
  }

  predicate Known(targets: seq<TargetInfo>, rel: RelId) {
    exists i :: 0 <= i < |targets| && targets[i].target.id == rel
  }

  /** Rows belong to configured relations, and a relation's container exists, with something
      listed in it, only once the relation is configured: a provisioned container is empty. */
  ghost predicate KnownStores(targets: seq<TargetInfo>, drive: Drive, rows: Rows) {
    && (forall k :: k in rows ==> Known(targets, k.rel))
    && (forall id :: id in drive.objs && drive.objs[id].place.At? ==> Known(targets, drive.objs[id].place.key.rel))
  }

  /** The chain that planning extended is one the pass's guarantees speak about. */
  lemma ExtendedIsGrown(chain: seq<FolderTarget>, longer: seq<FolderTarget>, targets0: seq<TargetInfo>,
                        targets: seq<TargetInfo>, w0: World, route: map<Path, RelId>)
    requires Extended(chain, longer, targets0, targets) && KnownStores(targets0, w0.drive, w0.rows)
    requires forall p :: p in route ==> InChain(longer, route[p])
    ensures Grown(chain, longer, w0, route)
  {
    forall rel | InChain(longer, rel) && Known(targets0, rel) ensures InChain(chain, rel) {
      var i :| 0 <= i < |longer| && longer[i].id == rel;
      if i < |chain| { assert chain[i] == longer[..|chain|][i]; }
    }
  }

  class SyncEngine {
    const store: Store
    const cloud: Cloud
    const clients: set<Account>

    constructor (s: Store, c: Cloud, cl: set<Account>)
      ensures store == s && cloud == c && clients == cl
    {
      store, cloud, clients := s, c, cl;
    }

    /** The containers of a chain, listed in an order of Drive's choosing. */
    method ListChain(chain: seq<FolderTarget>) returns (listing: Listing)
      ensures ListingOf(chain, cloud.drive, listing)
    {
      listing := map[];
      var todo := cloud.drive.objs.Keys;
      while todo != {}
        invariant todo <= cloud.drive.objs.Keys
        invariant ListedSoFar(chain, cloud.drive, cloud.drive.objs.Keys - todo, listing)
        decreases todo
      {
        var id :| id in todo;
        var o := cloud.drive.objs[id];
        ghost var seen := cloud.drive.objs.Keys - todo;
        assert cloud.drive.objs.Keys - (todo - {id}) == seen + {id};
        if o.place.At? && InChain(chain, o.place.key.rel) {
          EnterObject(chain, cloud.drive, seen, listing, id);
          listing := listing[o.place.key := ListedAt(listing, o.place.key) + [Describe(id, o)]];
        } else {
          PassObject(chain, cloud.drive, seen, listing, id);
        }
        todo := todo - {id};
      }
      ListedAll(chain, cloud.drive, listing);
    }

    /** The live rows of the chain's relations. */
    method BaseOfChain(chain: seq<FolderTarget>) returns (base: Rows)
      ensures BaseRows(chain, store.rows, base)
    {
      base := map[];
      var i := 0;
      while i < |chain|
        invariant 0 <= i <= |chain|
        invariant BaseRows(chain[..i], store.rows, base)
      {
        var files := store.FilesForRelation(chain[i].id);
        var live := map k | k in files && files[k].status != Trashed :: files[k];
        forall k: Key ensures InChain(chain[..i + 1], k.rel) <==> InChain(chain[..i], k.rel) || k.rel == chain[i].id {
          assert chain[..i + 1] == chain[..i] + [chain[i]];
          if k.rel == chain[i].id { assert chain[..i + 1][i].id == k.rel; }
          if j :| 0 <= j < i && chain[..i][j].id == k.rel { assert chain[..i + 1][j].id == k.rel; }
        }
        base := base + live;
        i := i + 1;
      }
      assert chain[..i] == chain;
    }

    /** Whether every account of the chain is authenticated. */
    method AllConnected(chain: seq<FolderTarget>) returns (ok: bool)
      ensures ok <==> forall i :: 0 <= i < |chain| ==> chain[i].account in clients
    {
      var i := 0;
      while i < |chain|
        invariant 0 <= i <= |chain| && forall j :: 0 <= j < i ==> chain[j].account in clients
      {
        if chain[i].account !in clients { return false; }
        i := i + 1;
      }
      return true;
    }

    /** What task i needs to complete: its relation's account is connected, a trash task's object is
        there, and neither its Drive call nor its row write fails for outside reasons. */
    ghost predicate Completes(exec: DriveExecutor, w0: World, calls: set<nat>, writes: set<nat>, i: nat)
      requires i < |w0.tasks|
    {
      var t := w0.tasks[i];
      && t.key.rel in exec.targets && exec.targets[t.key.rel] in exec.clients && Trashable(w0, t)
      && (t.action != Adopt ==> i !in calls) && (t.action != Dedupe ==> i !in writes)
    }

    ghost predicate DoneWhenIt(exec: DriveExecutor, w0: World, calls: set<nat>, writes: set<nat>, w: World, i: int) {
      0 <= i < |w0.tasks| && i < |w.phase| ==> (w.phase[i].Done? <==> Completes(exec, w0, calls, writes, i))
    }

    /** Runs the tasks on one worker; with several, the stores end up the same. calls and writes
        are the tasks whose Drive call or row write fails. For a sound set of tasks, each one completes
        exactly when it can, whatever becomes of the others, and an error is reported exactly
        when some task did not complete. */
    method RunTasks(exec: DriveExecutor, ghost w0: World, tasks: seq<Task>, calls: set<nat>, writes: set<nat>)
      returns (err: bool, ghost steps: seq<Step>)
      requires exec.store == store && exec.cloud == cloud && exec.Holds(w0)
      requires w0.tasks == tasks && Sound(w0) && AllWaiting(w0)
      modifies cloud`drive, store`rows
      ensures Runnable(w0, steps) && exec.Holds(Run(w0, steps)) && |Run(w0, steps).phase| == |tasks|
      ensures forall i :: 0 <= i < |tasks| ==> (Run(w0, steps).phase[i].Done? <==> Completes(exec, w0, calls, writes, i))
      ensures err <==> !AllDone(Run(w0, steps))
    {
      StartMirrors(w0);
      ghost var w := w0;
      steps, err := [], false;
      var i := 0;
      while i < |tasks|
        invariant 0 <= i <= |tasks| && exec.Holds(w) && Mirrors(w0, w)
        invariant Runnable(w0, steps) && Run(w0, steps) == w
        invariant forall j :: i <= j < |tasks| ==> w.phase[j].Waiting?
        invariant EachDone(exec, w0, calls, writes, w, i)
        invariant err <==> !DoneUpTo(w, i)
      {
        var at: Time := *;
        var r: Outcome;
        ghost var v: World, id: ObjId;
        TurnIsMirrored(w0, w, i);
        r, v, id := exec.Execute(w, i, tasks[i], at, i in calls, i in writes);
        ghost var more := StepsOf(exec, w, i, v, at, r, id);
        RunGoesOn(w0, w, steps, more);
        DoneUpToNext(w, v, i);
        EachDoneNext(exec, w0, calls, writes, w, v, i);
        w, steps := v, steps + more;
        if r == Failed { err := true; }
        i := i + 1;
      }
      forall j | 0 <= j < |tasks| ensures w.phase[j].Done? <==> Completes(exec, w0, calls, writes, j) {
        assert DoneWhenIt(exec, w0, calls, writes, w, j);
      }
    }

    ghost predicate EachDone(exec: DriveExecutor, w0: World, calls: set<nat>, writes: set<nat>, w: World, n: int) {
      forall j :: 0 <= j < n ==> DoneWhenIt(exec, w0, calls, writes, w, j)
    }

    lemma EachDoneNext(exec: DriveExecutor, w0: World, calls: set<nat>, writes: set<nat>, w: World, v: World, i: nat)
      requires i < |w.phase| == |v.phase| && (forall j :: 0 <= j < |w.phase| && j != i ==> v.phase[j] == w.phase[j])
      requires EachDone(exec, w0, calls, writes, w, i) && DoneWhenIt(exec, w0, calls, writes, v, i)
      ensures EachDone(exec, w0, calls, writes, v, i + 1)
    {
      forall j | 0 <= j < i ensures DoneWhenIt(exec, w0, calls, writes, v, j) {
        assert DoneWhenIt(exec, w0, calls, writes, w, j);
      }
    }

    lemma RunGoesOn(w0: World, w: World, steps: seq<Step>, more: seq<Step>)
      requires Mirrors(w0, w) && Runnable(w0, steps) && Run(w0, steps) == w && Runnable(w, more)
      ensures Runnable(w0, steps + more) && Run(w0, steps + more) == Run(w, more) && Mirrors(w0, Run(w, more))
    {
      RunConcat(w0, steps, more);
      RunMirrors(w0, w, more);
    }

    lemma StepsOf(exec: DriveExecutor, w: World, i: nat, v: World, at: Time, r: Outcome, id: ObjId) returns (steps: seq<Step>)
      requires WellFormed(w) && i < |w.tasks| && w.phase[i].Waiting? && exec.Stepped(w, i, v, at, r, id)
      ensures Runnable(w, steps) && Run(w, steps) == v
      ensures v.tasks == w.tasks && WellFormed(v) && (forall j :: 0 <= j < |w.phase| && j != i ==> v.phase[j] == w.phase[j])
      ensures r == Finished <==> v.phase[i].Done?
    {
      if v == w {
        steps := [];
      } else if v == Apply(w, Call(i, id)) {
        steps := [Call(i, id)];
        assert steps[1..] == [];
        assert Run(v, []) == v;
      } else {
        RunTwoMore(w, [], Call(i, id), Write(i, at));
        steps := [] + [Call(i, id), Write(i, at)];
      }
    }

    ghost predicate DoneUpTo(w: World, n: int) { forall i :: 0 <= i < n && i < |w.phase| ==> w.phase[i].Done? }

    lemma DoneUpToNext(w: World, v: World, i: nat)
      requires i < |w.phase| == |v.phase| && forall j :: 0 <= j < |w.phase| && j != i ==> v.phase[j] == w.phase[j]
      ensures DoneUpTo(v, i + 1) <==> DoneUpTo(w, i) && v.phase[i].Done?
    {
      if DoneUpTo(v, i + 1) { forall j | 0 <= j < i ensures w.phase[j].Done? { assert v.phase[j] == w.phase[j]; } }
    }

    /** A pass from the stores it found to the stores it left. */
    ghost predicate Passed(s: Snapshot, owner: map<Path, RelId>, route: map<Path, RelId>, w0: World, steps: seq<Step>,
                           drive0: Drive, rows0: Rows)
      reads store, cloud
    {
      && w0.drive == drive0 && w0.rows == rows0 && Planning(w0, s, owner, route)
      && Runnable(w0, steps) && Run(w0, steps).drive == cloud.drive && Run(w0, steps).rows == store.rows
    }

    ghost predicate DeferredFitNowhere(router: Router, s: Snapshot, owner: map<Path, RelId>, route: map<Path, RelId>)
      requires router.space.threshold.den > 0
      reads router.space
    {
      forall p :: Deferred(s, owner, route, p) && s.local[p].bytes != [] ==>
        NoRoomFor(s, p, router.space.Current(), router.space.accounts, router.Span(), router.space.threshold)
    }

    /** The first half of a pass: list and plan. */
    method PlanPass(chain: seq<FolderTarget>, local: LocalTree, router: Router, unreadable: set<Path>)
      returns (tasks: seq<Task>, ghost s: Snapshot, ghost owner: map<Path, RelId>, ghost route: map<Path, RelId>, ghost w0: World)
      requires router.store == store && router.Valid() && router.chain == chain && Stored(chain, store.targets)
      requires RowsOk(cloud.drive, store.rows)
      modifies store`targets
      modifies router`chain, router`inChain, router`provisionExhausted, router`lowOnly
      modifies router.space`clock, router.space`cache, router.space`pending, router.space`lastUsage
      ensures s.chain == chain && s.local == local && s.unreadable == unreadable && w0 == World(local, cloud.drive, store.rows, tasks, w0.phase)
      ensures Planning(w0, s, owner, route)
      ensures Extended(chain, router.chain, old(store.targets), store.targets)
      ensures forall p :: p in route ==> InChain(router.chain, route[p])
      ensures router.space.threshold.den > 0
      ensures router.Complete() ==> DeferredFitNowhere(router, s, owner, route)
    {
      var listing := ListChain(chain);
      var base := BaseOfChain(chain);
      var snapshot := Snapshot(chain, local, listing, base, unreadable);
      var builder := new Builder(snapshot, router);
      DistinctListing(chain, cloud.drive, listing);
      s := snapshot;
      var o, r;
      ghost var order, between, log;
      tasks, o, r, order, between, log := builder.BuildChainTasks();
      owner, route := o, r;
      w0 := World(local, cloud.drive, store.rows, tasks, seq(|tasks|, _ => Waiting));
    }

    /** The pass proper: plan, and run the tasks. */
    method RunPass(chain: seq<FolderTarget>, local: LocalTree, router: Router, unreadable: set<Path>,
                   calls: set<nat>, writes: set<nat>)
      returns (err: bool, ghost s: Snapshot, ghost owner: map<Path, RelId>, ghost route: map<Path, RelId>,
               ghost w0: World, ghost steps: seq<Step>)
      requires router.store == store && router.Valid() && router.chain == chain && Stored(chain, store.targets)
      requires RowsOk(cloud.drive, store.rows)
      modifies cloud`drive, store`rows, store`targets
      modifies router`chain, router`inChain, router`provisionExhausted, router`lowOnly
      modifies router.space`clock, router.space`cache, router.space`pending, router.space`lastUsage
      ensures s.chain == chain && s.local == local && s.unreadable == unreadable && w0.local == local
      ensures Passed(s, owner, route, w0, steps, old(cloud.drive), old(store.rows))
      ensures err <==> !AllDone(Run(w0, steps))
      ensures RowsOk(cloud.drive, store.rows)
      ensures calls == {} && writes == {} && Connected(router.chain) && TrashablesExist(w0, s, owner) ==> !err
      ensures Connected(router.chain) ==> EachForItself(w0, calls, writes, Run(w0, steps))
      ensures KnownStores(old(store.targets), old(cloud.drive), old(store.rows)) ==> Grown(chain, router.chain, w0, route)
      ensures router.space.threshold.den > 0 && (router.Complete() ==> DeferredFitNowhere(router, s, owner, route))
    {
      ghost var targets0 := store.targets;
      var tasks;
      tasks, s, owner, route, w0 := PlanPass(chain, local, router, unreadable);
      PassIsSound(router, w0, s, owner, route, targets0, store.targets);
      err, steps := RunPlanned(router.chain, tasks, local, s, owner, route, w0, calls, writes);
    }

    /** The second half of a pass: run what was planned, over the chain as planning left it. */
    method RunPlanned(chain: seq<FolderTarget>, tasks: seq<Task>, local: LocalTree,
                      ghost s: Snapshot, ghost owner: map<Path, RelId>, ghost route: map<Path, RelId>, ghost w0: World,
                      calls: set<nat>, writes: set<nat>)
      returns (err: bool, ghost steps: seq<Step>)
      requires Planning(w0, s, owner, route) && Sound(w0)
      requires w0 == World(local, cloud.drive, store.rows, tasks, w0.phase)
      requires |s.chain| <= |chain| && chain[..|s.chain|] == s.chain
      requires forall p :: p in route ==> InChain(chain, route[p])
      modifies cloud`drive, store`rows
      ensures Passed(s, owner, route, w0, steps, old(cloud.drive), old(store.rows))
      ensures err <==> !AllDone(Run(w0, steps))
      ensures RowsOk(cloud.drive, store.rows)
      ensures calls == {} && writes == {} && Connected(chain) && TrashablesExist(w0, s, owner) ==> !err
      ensures Connected(chain) ==> EachForItself(w0, calls, writes, Run(w0, steps))
    {
      var exec := new DriveExecutor(store, cloud, local, Accounts(chain), clients);
      err, steps := RunTasks(exec, w0, tasks, calls, writes);
      if Connected(chain) { PlanIsConnected(exec, w0, s, owner, route, chain); }
      if TrashablesExist(w0, s, owner) { PlanIsTrashable(w0, s, owner, route); }
      PassKeepsRows(w0, s, owner, route, steps);
    }

    /** Every task completes exactly when its object, if it is to be trashed, is there and neither its own Drive call
        nor its own row write fails, whatever becomes of the others. */
    ghost predicate EachForItself(w0: World, calls: set<nat>, writes: set<nat>, w: World) {
      |w.phase| == |w0.tasks| && forall i :: 0 <= i < |w0.tasks| ==> CompletesAt(w0, calls, writes, w, i)
    }

    ghost predicate CompletesAt(w0: World, calls: set<nat>, writes: set<nat>, w: World, i: nat)
      requires i < |w0.tasks| == |w.phase|
    {
      w.phase[i].Done? <==>
        && Trashable(w0, w0.tasks[i])
        && (w0.tasks[i].action != Adopt ==> i !in calls) && (w0.tasks[i].action != Dedupe ==> i !in writes)
    }

    lemma PassIsSound(router: Router, w0: World, s: Snapshot, owner: map<Path, RelId>, route: map<Path, RelId>,
                      targets0: seq<TargetInfo>, targets: seq<TargetInfo>)
      requires Planning(w0, s, owner, route) && Extended(s.chain, router.chain, targets0, targets)
      requires forall p :: p in route ==> InChain(router.chain, route[p])
      ensures Sound(w0)
      ensures KnownStores(targets0, w0.drive, w0.rows) ==> Grown(s.chain, router.chain, w0, route)
    {
      PlanIsSound(w0, s, owner, route);
      if KnownStores(targets0, w0.drive, w0.rows) {
        ExtendedIsGrown(s.chain, router.chain, targets0, targets, w0, route);
      }
    }

    /** SyncChain: one full reconciliation pass over the chain of a primary target, on stores as
        every life of the daemon leaves them. */
    method SyncChain(primary: FolderTarget, local: LocalTree, router: Router, unreadable: set<Path>,
                     calls: set<nat>, writes: set<nat>)
      returns (err: bool, ghost s: Snapshot, ghost owner: map<Path, RelId>, ghost route: map<Path, RelId>,
               ghost w0: World, ghost steps: seq<Step>)
      requires router.store == store && router.Valid()
      requires router.chain == [primary] + Overflows(store.targets, primary.id)
      requires Stored(router.chain, store.targets) && RowsOk(cloud.drive, store.rows)
      modifies cloud`drive, store`rows, store`targets
      modifies router`chain, router`inChain, router`provisionExhausted, router`lowOnly
      modifies router.space`clock, router.space`cache, router.space`pending, router.space`lastUsage
      ensures RowsOk(cloud.drive, store.rows)
      // An account of the chain is not connected: nothing happens.
      ensures !Connected(old(router.chain)) ==>
                err && store.rows == old(store.rows) && cloud.drive == old(cloud.drive) && store.targets == old(store.targets)
      // Otherwise the pass plans from what it found, runs steps of that plan, and reports exactly whether a task is left.
      ensures Connected(old(router.chain)) ==>
                && s.chain == old(router.chain) && s.local == local && s.unreadable == unreadable && w0.local == local
                && Passed(s, owner, route, w0, steps, old(cloud.drive), old(store.rows))
                && (err <==> !AllDone(Run(w0, steps)))
                && (calls == {} && writes == {} && Connected(router.chain) && TrashablesExist(w0, s, owner) ==> !err)
      // The relations it added are new and empty, as the theorems about following passes need.
      ensures Connected(old(router.chain)) && KnownStores(old(store.targets), old(cloud.drive), old(store.rows)) ==>
                Grown(s.chain, router.chain, w0, route)
      // A non-empty file is deferred only when it fits no authenticated account.
      ensures Connected(old(router.chain)) && router.Complete() ==> DeferredFitNowhere(router, s, owner, route)
      // Local Is Law, exactly, for every path whose own task completed.
      ensures Connected(old(router.chain)) ==>
                forall p :: p in local && !Deferred(s, owner, route, p) && PathDone(Run(w0, steps), p) ==>
                  (InSync(Run(w0, steps), Home(s, owner, route, p)) <==> !Unseen(w0, s, owner, route, p))
      // One task's failure does not stop the others, so the law holds for every path whose own calls and writes succeed.
      ensures Connected(old(router.chain)) && Connected(router.chain) ==>
                && EachForItself(w0, calls, writes, Run(w0, steps))
                && LawForTheSpared(w0, s, owner, route, calls + writes, Run(w0, steps))
    {
      owner, route, steps := map[], map[], [];
      var overflows := store.OverflowsOf(primary.id);
      var chain := [primary] + overflows;
      w0 := World(local, cloud.drive, store.rows, [], []);
      s := Snapshot(chain, local, map[], map[], unreadable);
      var connected := AllConnected(chain);
      if !connected { return true, s, owner, route, w0, steps; }
      err, s, owner, route, w0, steps := RunPass(chain, local, router, unreadable, calls, writes);
      LawPathByPath(w0, s, owner, route, steps);
      if EachForItself(w0, calls, writes, Run(w0, steps)) { LawOfTheSpared(w0, s, owner, route, steps, calls, writes); }
    }

    /** None of the path's own tasks is among the failing ones. */
    ghost predicate Spared(w0: World, failing: set<nat>, p: Path) {
      forall i :: 0 <= i < |w0.tasks| && w0.tasks[i].key.path == p ==> i !in failing
    }

    ghost predicate LawForTheSpared(w0: World, s: Snapshot, owner: map<Path, RelId>, route: map<Path, RelId>,
                                    failing: set<nat>, w: World) {
      forall p :: p in w0.local && p in s.local && !Deferred(s, owner, route, p) && Spared(w0, failing, p) ==>
        (InSync(w, Home(s, owner, route, p)) <==> !Unseen(w0, s, owner, route, p))
    }

    lemma LawOfTheSpared(w0: World, s: Snapshot, owner: map<Path, RelId>, route: map<Path, RelId>, steps: seq<Step>,
                         calls: set<nat>, writes: set<nat>)
      requires Planning(w0, s, owner, route) && Runnable(w0, steps) && EachForItself(w0, calls, writes, Run(w0, steps))
      ensures LawForTheSpared(w0, s, owner, route, calls + writes, Run(w0, steps))
    {
      PlanIsSound(w0, s, owner, route);
      PassMirrors(w0, steps);
      SparedAreDone(w0, s, owner, route, calls, writes, Run(w0, steps));
      LawPathByPath(w0, s, owner, route, steps);
    }

    lemma SparedAreDone(w0: World, s: Snapshot, owner: map<Path, RelId>, route: map<Path, RelId>,
                        calls: set<nat>, writes: set<nat>, w: World)
      requires Planning(w0, s, owner, route) && w.tasks == w0.tasks && EachForItself(w0, calls, writes, w)
      ensures forall p :: p in w0.local && Spared(w0, calls + writes, p) ==> PathDone(w, p)
    {
      forall p, i | p in w0.local && Spared(w0, calls + writes, p) && 0 <= i < |w.tasks| && w.tasks[i].key.path == p
                    && WritesRow(w.tasks[i])
        ensures w.phase[i].Done?
      {
        assert CompletesAt(w0, calls, writes, w, i) && Planned(s, owner, route, w.tasks[i]);
        LocalIsNotTrashed(s, owner, route, w.tasks[i]);
      }
    }

    ghost predicate Connected(chain: seq<FolderTarget>) {
      forall i :: 0 <= i < |chain| ==> chain[i].account in clients
    }

    lemma PlanIsConnected(exec: DriveExecutor, w0: World, s: Snapshot, owner: map<Path, RelId>, route: map<Path, RelId>,
                          chain: seq<FolderTarget>)
      requires Planning(w0, s, owner, route) && Connected(chain)
      requires exec.targets == Accounts(chain) && exec.clients == clients
      requires |s.chain| <= |chain| && chain[..|s.chain|] == s.chain
      requires forall p :: p in route ==> InChain(chain, route[p])
      ensures forall i :: 0 <= i < |w0.tasks| ==> exec.Resolves(w0.tasks[i].key.rel)
    {
      forall i | 0 <= i < |w0.tasks| ensures exec.Resolves(w0.tasks[i].key.rel) {
        assert Planned(s, owner, route, w0.tasks[i]);
        PlannedInChain(w0, s, owner, route, w0.tasks[i]);
        if InChain(s.chain, w0.tasks[i].key.rel) { InLonger(s.chain, chain, w0.tasks[i].key.rel); }
        AccountsConnected(chain, w0.tasks[i].key.rel);
      }
    }

    lemma PlanIsTrashable(w0: World, s: Snapshot, owner: map<Path, RelId>, route: map<Path, RelId>)
      requires Planning(w0, s, owner, route) && TrashablesExist(w0, s, owner)
      ensures forall i :: 0 <= i < |w0.tasks| ==> Trashable(w0, w0.tasks[i])
    {
      forall i | 0 <= i < |w0.tasks| ensures Trashable(w0, w0.tasks[i]) {
        assert Planned(s, owner, route, w0.tasks[i]);
        PlannedTrashable(w0, s, owner, route, w0.tasks[i]);
      }
    }

    lemma {:induction false} AccountsConnected(chain: seq<FolderTarget>, rel: RelId)
      requires Connected(chain) && InChain(chain, rel)
      ensures rel in Accounts(chain) && Accounts(chain)[rel] in clients
      decreases |chain|
    {
      var rest := chain[..|chain| - 1];
      if chain[|chain| - 1].id != rel {
        var i :| 0 <= i < |chain| && chain[i].id == rel;
        assert rest[i].id == rel;
        AccountsConnected(rest, rel);
      }
    }

    function Accounts(chain: seq<FolderTarget>): map<RelId, Account> {
      if chain == [] then map[] else Accounts(chain[..|chain| - 1])[chain[|chain| - 1].id := chain[|chain| - 1].account]
    }
  }

  /** A task is on a relation of the chain, or where its path was routed. */
  lemma PlannedInChain(w0: World, s: Snapshot, owner: map<Path, RelId>, route: map<Path, RelId>, t: Task)
    requires BaseRows(s.chain, w0.rows, s.base) && Planned(s, owner, route, t)
    ensures InChain(s.chain, t.key.rel) || (t.key.path in route && t.key.rel == route[t.key.path])
  {
    if t.key.path !in owner {
      var twin := FindTwin(s.chain, s.listing, t.key.path);
      if twin.Some? {
        var i :| 0 <= i < |s.chain| && twin.value.rel == s.chain[i].id;
      }
    }
  }

  lemma LocalIsNotTrashed(s: Snapshot, owner: map<Path, RelId>, route: map<Path, RelId>, t: Task)
    requires Planned(s, owner, route, t) && t.key.path in s.local
    ensures t.action != Trash
  {
  }

  lemma PlannedTrashable(w0: World, s: Snapshot, owner: map<Path, RelId>, route: map<Path, RelId>, t: Task)
    requires BaseRows(s.chain, w0.rows, s.base) && s.local == w0.local
    requires TrashablesExist(w0, s, owner) && Planned(s, owner, route, t)
    ensures Trashable(w0, t)
  {
  }

  lemma DistinctListing(chain: seq<FolderTarget>, drive: Drive, listing: Listing)
    requires ListingOf(chain, drive, listing)
    ensures forall k :: DistinctIds(ListedAt(listing, k))
  {
  }
}
