/** Recovery: from a daemon that stopped in mid-pass, and from the loss of the tracking rows. */
module Recovery {
  import opened SyncTypes
  import opened Merging
  import opened PlanSpec
  import opened PassMachine
  import opened PlanSound
  import opened Schedule
  import opened Runs
  import opened Stamps
  import opened MirrorLaw
  import opened Ownership
  import opened Convergence

  // ---- interrupted uploads of brand-new files ----

  /** After an interrupted pass, what is listed for a brand-new path at a chain relation was
      listed there before, or is the object the path's own task created. */
  lemma NewPathOrigin(w0: World, s: Snapshot, owner: map<Path, RelId>, route: map<Path, RelId>, w: World,
                      longer: seq<FolderTarget>, i: nat, id: ObjId)
    requires Started(w0, s, owner, route, w) && Grown(s.chain, longer, w0, route)
    requires i < |w.tasks| && WritesRow(w.tasks[i])
    requires id in w.drive.objs && w.drive.objs[id].place.At? && InChain(longer, w.drive.objs[id].place.key.rel)
    requires w.drive.objs[id].place.key.path == w.tasks[i].key.path
    ensures (id in w0.drive.objs && w0.drive.objs[id].place == w.drive.objs[id].place)
         || (Creates(w.tasks[i]) && !w.phase[i].Waiting? && w.phase[i].rf.id == id
             && w.drive.objs[id].place.key == w.tasks[i].key)
  {
    var j := ListedOrigin(w0, s, owner, route, w, longer, id);
    if j != -1 {
      OneWriter(w0, s, owner, route, i, j);
    }
  }

  /** The interrupted task's object is listed at its position with the local content. */
  lemma InterruptedIsListed(w0: World, w: World, i: nat)
    requires Mirrors(w0, w) && i < |w.tasks| && Uploads(w.tasks[i].action) && !w.phase[i].Waiting?
    ensures var t, id := w.tasks[i], w.phase[i].rf.id;
      && t.key.path in w.local && id in w.drive.objs && w.drive.objs[id].place == At(t.key)
      && w.drive.objs[id].content == Binary(w.local[t.key.path].bytes)
  {
    assert AnswerOk(w0, w.tasks[i], w.phase[i].rf) && TaskSoundAt(w0, i);
  }

  lemma InterruptedIsUnowned(w0: World, s: Snapshot, owner: map<Path, RelId>, route: map<Path, RelId>, w: World,
                             longer: seq<FolderTarget>, i: nat, k: Key)
    requires Started(w0, s, owner, route, w) && Grown(s.chain, longer, w0, route)
    requires i < |w.tasks| && WritesRow(w.tasks[i]) && !w.phase[i].Done?
    requires k.path == w.tasks[i].key.path && k.path !in owner
    ensures !OwnsIn(longer, w.rows, k)
  {
    if OwnsIn(longer, w.rows, k) {
      var j := LiveRowOrigin(w0, s, owner, route, w, longer, k);
      OneWriter(w0, s, owner, route, i, j);
    }
  }

  ghost predicate Interrupted(w0: World, s: Snapshot, owner: map<Path, RelId>, route: map<Path, RelId>, w: World, i: nat) {
    && Started(w0, s, owner, route, w) && i < |w.tasks|
    && Uploads(w.tasks[i].action) && w.phase[i].Called? && w.tasks[i].key.path !in owner
  }

  /** The candidates of a path now, when all but those at key were candidates before. */
  ghost predicate OnlyNewAt(chain: seq<FolderTarget>, longer: seq<FolderTarget>, before: Listing, now: Listing, key: Key) {
    && |chain| <= |longer| && longer[..|chain|] == chain
    && ListedAt(now, key) != []
    && forall rel :: WasListed(chain, longer, before, now, key, rel)
  }

  ghost predicate WasListed(chain: seq<FolderTarget>, longer: seq<FolderTarget>, before: Listing, now: Listing,
                            key: Key, rel: RelId) {
    rel != key.rel && InChain(longer, rel) && ListedAt(now, Key(rel, key.path)) != [] ==>
      InChain(chain, rel) && ListedAt(before, Key(rel, key.path)) != []
  }

  lemma FirstListed(chain: seq<FolderTarget>, listing: Listing, p: Path, c: nat) returns (n: nat)
    requires c < |chain| && ListedAt(listing, Key(chain[c].id, p)) != []
    ensures n <= c && TwinAt(chain, listing, p, n)
  {
    n := 0;
    while ListedAt(listing, Key(chain[n].id, p)) == []
      invariant n <= c
      invariant forall j :: 0 <= j < n ==> ListedAt(listing, Key(chain[j].id, p)) == []
      decreases c - n
    {
      n := n + 1;
    }
  }

  /** The first relation that lists the path now is the key's own. */
  lemma FirstIsKey(chain: seq<FolderTarget>, longer: seq<FolderTarget>, before: Listing, now: Listing, key: Key, m: nat)
    requires OnlyNewAt(chain, longer, before, now, key) && TwinAt(longer, now, key.path, m)
    requires forall n :: TwinAt(chain, before, key.path, n) ==> chain[n].id == key.rel
    ensures longer[m].id == key.rel
  {
    var rel := longer[m].id;
    assert WasListed(chain, longer, before, now, key, rel) && InChain(longer, rel);
    assert forall n :: 0 <= n < |chain| ==> longer[n] == longer[..|chain|][n];
    if rel != key.rel {
      var c :| 0 <= c < |chain| && chain[c].id == rel;
      var n := FirstListed(chain, before, key.path, c);
    }
  }

  lemma TwinIndex(chain: seq<FolderTarget>, listing: Listing, p: Path) returns (m: nat)
    requires FindTwin(chain, listing, p).Some?
    ensures TwinAt(chain, listing, p, m) && FindTwin(chain, listing, p).value.rel == chain[m].id
  {
    m :| TwinAt(chain, listing, p, m) && FindTwin(chain, listing, p).value.rel == chain[m].id;
  }

  lemma TwinAtIsTwin(chain: seq<FolderTarget>, listing: Listing, p: Path, n: nat)
    requires TwinAt(chain, listing, p, n)
    ensures FindTwin(chain, listing, p).Some? && FindTwin(chain, listing, p).value.rel == chain[n].id
  {
    var m := TwinIndex(chain, listing, p);
  }

  lemma TwinInLonger(chain: seq<FolderTarget>, longer: seq<FolderTarget>, before: Listing, now: Listing, key: Key)
    requires OnlyNewAt(chain, longer, before, now, key) && InChain(longer, key.rel)
    requires forall n :: TwinAt(chain, before, key.path, n) ==> chain[n].id == key.rel
    ensures FindTwin(longer, now, key.path).Some? && FindTwin(longer, now, key.path).value.rel == key.rel
  {
    var here :| 0 <= here < |longer| && longer[here].id == key.rel;
    var m := FirstListed(longer, now, key.path, here);
    FirstIsKey(chain, longer, before, now, key, m);
    TwinAtIsTwin(longer, now, key.path, m);
  }

  /** Any other candidate of an interrupted path was a candidate already. */
  lemma StrangerWasListed(w0: World, s: Snapshot, owner: map<Path, RelId>, route: map<Path, RelId>, w: World, i: nat,
                          v0: World, s': Snapshot, k: Key)
    requires Interrupted(w0, s, owner, route, w, i) && Grown(s.chain, s'.chain, w0, route)
    requires Follows(w, v0) && ListingOf(s'.chain, v0.drive, s'.listing) && InChain(s'.chain, k.rel)
    requires k.path == w.tasks[i].key.path && k != w.tasks[i].key && ListedAt(s'.listing, k) != []
    ensures InChain(s.chain, k.rel) && ListedAt(s.listing, k) != []
  {
    var id := ListedAt(s'.listing, k)[0].id;
    assert id in v0.drive.objs && v0.drive.objs[id].place == At(k);
    NewPathOrigin(w0, s, owner, route, w, s'.chain, i, id);
    assert InChain(s.chain, k.rel);
    assert Holds(ListedAt(s.listing, k), id);
  }

  /** The next plan finds the interrupted upload's relation again. */
  lemma TwinIsInterrupted(w0: World, s: Snapshot, owner: map<Path, RelId>, route: map<Path, RelId>, w: World, i: nat,
                          v0: World, s': Snapshot)
    requires Interrupted(w0, s, owner, route, w, i) && Grown(s.chain, s'.chain, w0, route)
    requires Follows(w, v0) && ListingOf(s'.chain, v0.drive, s'.listing) && InChain(s'.chain, w.tasks[i].key.rel)
    ensures Holds(ListedAt(s'.listing, w.tasks[i].key), w.phase[i].rf.id)
    ensures var twin := FindTwin(s'.chain, s'.listing, w.tasks[i].key.path);
      twin.Some? && twin.value.rel == w.tasks[i].key.rel
  {
    var t := w.tasks[i];
    InterruptedIsListed(w0, w, i);
    assert Holds(ListedAt(s'.listing, t.key), w.phase[i].rf.id);
    forall rel ensures WasListed(s.chain, s'.chain, s.listing, s'.listing, t.key, rel) {
      if rel != t.key.rel && InChain(s'.chain, rel) && ListedAt(s'.listing, Key(rel, t.key.path)) != [] {
        StrangerWasListed(w0, s, owner, route, w, i, v0, s', Key(rel, t.key.path));
      }
    }
    assert Planned(s, owner, route, t);
    forall n | TwinAt(s.chain, s.listing, t.key.path, n) ensures s.chain[n].id == t.key.rel {
      TwinAtIsTwin(s.chain, s.listing, t.key.path, n);
    }
    TwinInLonger(s.chain, s'.chain, s.listing, s'.listing, t.key);
  }

  /** The twin's state is the first candidate's. */
  lemma TwinIsFirst(chain: seq<FolderTarget>, listing: Listing, p: Path)
    requires FindTwin(chain, listing, p).Some?
    ensures var twin := FindTwin(chain, listing, p).value;
      var cands := ListedAt(listing, Key(twin.rel, p));
      cands != [] && twin.state == StateOf(cands[0])
  {
  }

  lemma FirstIsInterrupted(w0: World, s: Snapshot, owner: map<Path, RelId>, route: map<Path, RelId>, w: World, i: nat,
                           v0: World, s': Snapshot)
    requires Interrupted(w0, s, owner, route, w, i) && Grown(s.chain, s'.chain, w0, route)
    requires Follows(w, v0) && ListingOf(s'.chain, v0.drive, s'.listing) && InChain(s'.chain, w.tasks[i].key.rel)
    requires ListedAt(s'.listing, w.tasks[i].key) != []
    requires w.tasks[i].remote.Some? ==> ListedAt(s'.listing, w.tasks[i].key)[0].id == w.phase[i].rf.id
    ensures var f := ListedAt(s'.listing, w.tasks[i].key)[0];
      f.id == w.phase[i].rf.id && f.md5 == DigestAt(w.local, w.tasks[i].key.path)
  {
    var f := ListedAt(s'.listing, w.tasks[i].key)[0];
    InterruptedIsListed(w0, w, i);
    assert f.id in v0.drive.objs && v0.drive.objs[f.id].place == At(w.tasks[i].key);
    if w.tasks[i].remote.None? {
      StrangerAtCreated(w0, s, owner, route, w, i, s'.chain, f.id);
    }
    assert f == Describe(f.id, v0.drive.objs[f.id]);
  }

  /** A brand-new file whose upload reached Drive goes to the same relation in the next pass, and no second
      object is made: it is adopted exactly when it can be hashed and the candidate that Drive lists
      first has its content. A created object is the only candidate; of several that were there
      before, an update in place is recognised when Drive lists the same one first again, or
      another with that content. */
  lemma InterruptedUploadIsAdopted(
      w0: World, s: Snapshot, owner: map<Path, RelId>, route: map<Path, RelId>, w: World, i: nat,
      v0: World, s': Snapshot, owner': map<Path, RelId>, route': map<Path, RelId>) returns (j: nat)
    requires Interrupted(w0, s, owner, route, w, i) && Grown(s.chain, s'.chain, w0, route)
    requires Follows(w, v0) && Planning(v0, s', owner', route')
    ensures j < |v0.tasks| && v0.tasks[j].key == w.tasks[i].key && ListedAt(s'.listing, w.tasks[i].key) != []
    ensures var first := ListedAt(s'.listing, w.tasks[i].key)[0];
      && v0.tasks[j].remote == Some(StateOf(first))
      && v0.tasks[j].action in {Adopt, Upload}
      && (v0.tasks[j].action == Adopt <==>
            w.tasks[i].key.path !in s'.unreadable && first.md5 == DigestAt(w.local, w.tasks[i].key.path))
      && (w.tasks[i].remote.None? ==> first.id == w.phase[i].rf.id)
      && (first.id == w.phase[i].rf.id ==> first.md5 == DigestAt(w.local, w.tasks[i].key.path))
    ensures forall l :: 0 <= l < |v0.tasks| && v0.tasks[l].key.path == w.tasks[i].key.path ==>
              v0.tasks[l] == v0.tasks[j]
  {
    RouteInChain(w0, s, owner, route, w.tasks[i], s'.chain);
    InterruptedPathIsNew(w0, s, owner, route, w, i, v0, s', owner');
    InterruptedIsTwin(w0, s, owner, route, w, i, v0, s', route');
    j := NewTaskIsPlanned(v0, s', owner', route', w.tasks[i].key.path);
  }

  /** A task's relation is in the chain as the pass left it. */
  lemma RouteInChain(w0: World, s: Snapshot, owner: map<Path, RelId>, route: map<Path, RelId>, t: Task, longer: seq<FolderTarget>)
    requires BaseRows(s.chain, w0.rows, s.base) && OwnerMap(s.base, owner) && Planned(s, owner, route, t)
    requires Grown(s.chain, longer, w0, route)
    ensures InChain(longer, t.key.rel)
  {
    if t.key.path in owner || FindTwin(s.chain, s.listing, t.key.path).Some? { InLonger(s.chain, longer, t.key.rel); }
  }

  /** What the next pass plans for it. */
  lemma InterruptedIsTwin(w0: World, s: Snapshot, owner: map<Path, RelId>, route: map<Path, RelId>, w: World, i: nat,
                          v0: World, s': Snapshot, route': map<Path, RelId>)
    requires Interrupted(w0, s, owner, route, w, i) && Grown(s.chain, s'.chain, w0, route)
    requires Follows(w, v0) && SnapshotOf(s', v0.local, v0.drive, v0.rows) && InChain(s'.chain, w.tasks[i].key.rel)
    ensures w.tasks[i].key.path in s'.local && ListedAt(s'.listing, w.tasks[i].key) != []
    ensures var first, task := ListedAt(s'.listing, w.tasks[i].key)[0], NewTask(s', route', w.tasks[i].key.path);
      && task.Some? && task.value.key == w.tasks[i].key && task.value.remote == Some(StateOf(first))
      && task.value.action == (if w.tasks[i].key.path !in s'.unreadable && first.md5 == DigestAt(w.local, w.tasks[i].key.path)
                               then Adopt else Upload)
      && (w.tasks[i].remote.None? ==> first.id == w.phase[i].rf.id)
      && (first.id == w.phase[i].rf.id ==> first.md5 == DigestAt(w.local, w.tasks[i].key.path))
  {
    InterruptedIsListed(w0, w, i);
    TwinIsInterrupted(w0, s, owner, route, w, i, v0, s');
    TwinIsFirst(s'.chain, s'.listing, w.tasks[i].key.path);
    var first := ListedAt(s'.listing, w.tasks[i].key)[0];
    if w.tasks[i].remote.None? || first.id == w.phase[i].rf.id { FirstIsInterrupted(w0, s, owner, route, w, i, v0, s'); }
  }

  lemma InterruptedPathIsNew(w0: World, s: Snapshot, owner: map<Path, RelId>, route: map<Path, RelId>, w: World, i: nat,
                             v0: World, s': Snapshot, owner': map<Path, RelId>)
    requires Interrupted(w0, s, owner, route, w, i) && Grown(s.chain, s'.chain, w0, route)
    requires Follows(w, v0) && SnapshotOf(s', v0.local, v0.drive, v0.rows) && OwnerMap(s'.base, owner')
    ensures w.tasks[i].key.path !in owner'
  {
    var p := w.tasks[i].key.path;
    if p in owner' {
      InterruptedIsUnowned(w0, s, owner, route, w, s'.chain, i, Key(owner'[p], p));
    }
  }

  lemma NewTaskIsPlanned(v0: World, s: Snapshot, owner: map<Path, RelId>, route: map<Path, RelId>, p: Path) returns (j: nat)
    requires IsPlan(s, owner, route, v0.tasks) && p in s.local && p !in owner && NewTask(s, route, p).Some?
    ensures j < |v0.tasks| && v0.tasks[j] == NewTask(s, route, p).value
    ensures forall l :: 0 <= l < |v0.tasks| && v0.tasks[l].key.path == p ==> v0.tasks[l] == v0.tasks[j]
  {
    var task := NewTask(s, route, p).value;
    assert Planned(s, owner, route, task);
    j :| 0 <= j < |v0.tasks| && v0.tasks[j] == task;
    forall l | 0 <= l < |v0.tasks| && v0.tasks[l].key.path == p ensures v0.tasks[l] == task {
      assert Planned(s, owner, route, v0.tasks[l]);
    }
  }

  lemma StrangerAtCreated(w0: World, s: Snapshot, owner: map<Path, RelId>, route: map<Path, RelId>, w: World, i: nat,
                          longer: seq<FolderTarget>, id: ObjId)
    requires Interrupted(w0, s, owner, route, w, i) && w.tasks[i].remote.None? && Grown(s.chain, longer, w0, route)
    requires InChain(longer, w.tasks[i].key.rel)
    requires id in w.drive.objs && w.drive.objs[id].place == At(w.tasks[i].key)
    ensures id == w.phase[i].rf.id
  {
    NewPathOrigin(w0, s, owner, route, w, longer, i, id);
    assert Planned(s, owner, route, w.tasks[i]);
    if id in w0.drive.objs && w0.drive.objs[id].place == At(w.tasks[i].key) {
      EmptyPosition(w0, s, longer, route, w.tasks[i].key, id);
    }
  }

  // ---- interrupted trashings ----

  /** A path deleted locally ends up TRASHED and tanked after the next completed pass,
      wherever the first pass was cut short. */
  lemma TrashingsFinish(w0: World, s: Snapshot, owner: map<Path, RelId>, route: map<Path, RelId>, w: World,
                        v0: World, s': Snapshot, owner': map<Path, RelId>, route': map<Path, RelId>, v: World, k: Key)
    requires Started(w0, s, owner, route, w) && Grown(s.chain, s'.chain, w0, route) && SingleOwners(s.chain, w0.rows)
    requires OwnsIn(s.chain, w0.rows, k) && k.path !in w0.local
    requires Follows(w, v0) && Completed(v0, s', owner', route', v)
    ensures k in v.rows && v.rows[k].status == Trashed && v.rows[k].remoteId == w0.rows[k].remoteId
    ensures v.rows[k].remoteId in v.drive.objs ==> v.drive.objs[v.rows[k].remoteId].place.Tank?
  {
    SoleOwnerIsOwner(s, w0, owner, k);
    InLonger(s.chain, s'.chain, k.rel);
    if i :| Wrote(w, i, k) {
      TrashedAlready(w0, s, owner, route, w, i);
      StaysTrashed(w0, s, owner, route, w, v0, s', owner', route', v, k);
    } else {
      assert Unwritten(w, k);
      assert SameRow(w0.rows, w.rows, k);
      OwnershipStaysSingle(w0, s, owner, route, w, s'.chain);
      SoleOwnerIsOwner(s', v0, owner', k);
      DeletionsReachTheTank(v0, s', owner', route', v, k.path);
    }
  }

  lemma TrashedAlready(w0: World, s: Snapshot, owner: map<Path, RelId>, route: map<Path, RelId>, w: World, i: nat)
    requires Started(w0, s, owner, route, w) && i < |w.tasks| && w.phase[i].Done? && WritesRow(w.tasks[i])
    requires w.tasks[i].key.path !in w0.local
    ensures w.tasks[i].action == Trash
    ensures var k := w.tasks[i].key;
      k in w.rows && k in w0.rows && w.rows[k].status == Trashed && w.rows[k].remoteId == w0.rows[k].remoteId
  {
    assert TaskSoundAt(w0, i);
  }

  lemma StaysTrashed(w0: World, s: Snapshot, owner: map<Path, RelId>, route: map<Path, RelId>, w: World,
                     v0: World, s': Snapshot, owner': map<Path, RelId>, route': map<Path, RelId>, v: World, k: Key)
    requires Started(w0, s, owner, route, w) && Grown(s.chain, s'.chain, w0, route) && SingleOwners(s.chain, w0.rows)
    requires k.path !in w0.local && k.path in owner && owner[k.path] == k.rel
    requires k in w.rows && w.rows[k].status == Trashed
    requires Follows(w, v0) && Started(v0, s', owner', route', v)
    ensures SameRow(v0.rows, v.rows, k)
    ensures v.rows[k].remoteId in v.drive.objs ==> v.drive.objs[v.rows[k].remoteId].place.Tank?
  {
    if k.path in owner' {
      var l := Key(owner'[k.path], k.path);
      var i := LiveRowAtOwner(w0, s, owner, route, w, s'.chain, l);
    }
    RemoteOnlyIgnored(v0, s', owner', route', v, k.path);
    assert Unwritten(v, k);
    assert SameRow(v0.rows, v.rows, k);
    var id := v.rows[k].remoteId;
    if id in v0.drive.objs { assert TrackedOk(v0.drive.objs[id], v0.rows, k); }
    NoResurrection(v0, v, id);
    if id in v0.drive.objs {
      ForeignDataSurvives(v0, s', owner', route', v, id);
    }
  }

  /** IDs are not reused: an object that is gone stays gone. */
  lemma NoResurrection(v0: World, v: World, id: ObjId)
    requires Mirrors(v0, v) && id in v0.drive.used
    ensures id in v.drive.objs ==> id in v0.drive.objs
  {
    if id !in v0.drive.objs {
      forall i ensures !Touches(v, i, id) {
        if 0 <= i < |v.tasks| && !v.phase[i].Waiting? { assert AnswerOk(v0, v.tasks[i], v.phase[i].rf); }
      }
      assert Untouched(v, id);
      assert SameObject(v0.drive, v.drive, id);
    }
  }

  // ---- the theorem ----

  /** A pass that was cut short at w, and the completed pass v0 -> v that ran after the restart. */
  ghost predicate Resumed(
      d: Daemon, s: Snapshot, owner: map<Path, RelId>, route: map<Path, RelId>, w: World,
      v0: World, s': Snapshot, owner': map<Path, RelId>, route': map<Path, RelId>, v: World)
  {
    && Started(d.w, s, owner, route, w)
    && Grown(s.chain, s'.chain, d.w, route)
    && Follows(w, v0) && Completed(v0, s', owner', route', v)
  }

  /** The rows a pass writes describe the local files. */
  lemma WrittenDescribes(w0: World, w: World, i: nat, k: Key)
    requires Mirrors(w0, w) && Wrote(w, i, k)
    ensures w.tasks[i].action != Trash ==> Describes(w.local, w.rows, k)
    ensures w.tasks[i].action == Trash ==> !Live(w.rows, k)
  {
    assert AnswerOk(w0, w.tasks[i], w.phase[i].rf) && TaskSoundAt(w0, i);
  }

  /** A pass makes no merge blind. */
  lemma PassBlindsNothing(d: Daemon, s: Snapshot, owner: map<Path, RelId>, route: map<Path, RelId>, w: World, k: Key)
    requires Stamped(d) && Started(d.w, s, owner, route, w)
    ensures Blind(w, k) ==> k in d.stale
  {
    assert RowStamped(d, k) && LocalStamped(d, k.path);
    if i :| Wrote(w, i, k) {
      WrittenDescribes(d.w, w, i, k);
    } else {
      assert Unwritten(w, k);
      assert SameRow(d.w.rows, w.rows, k);
    }
  }

  /** The stores an interrupted pass leaves are again fit for a pass. */
  lemma RestartIsSafe(d: Daemon, s: Snapshot, owner: map<Path, RelId>, route: map<Path, RelId>,
                      steps: seq<Step>, s': Snapshot, owner': map<Path, RelId>, route': map<Path, RelId>, v0: World)
    requires Stamped(d) && Planning(d.w, s, owner, route) && Runnable(d.w, steps)
    requires Follows(Run(d.w, steps), v0) && WellFormed(v0) && AllWaiting(v0)
    requires SnapshotOf(s', v0.local, v0.drive, v0.rows) && IsPlan(s', owner', route', v0.tasks)
    ensures Started(d.w, s, owner, route, Run(d.w, steps))
    ensures Planning(v0, s', owner', route') && forall k :: Blind(v0, k) ==> k in d.stale
  {
    var w := Run(d.w, steps);
    PlanIsSound(d.w, s, owner, route);
    PassMirrors(d.w, steps);
    PassKeepsRows(d.w, s, owner, route, steps);
    forall k | Blind(v0, k) ensures k in d.stale {
      assert Blind(w, k);
      PassBlindsNothing(d, s, owner, route, w, k);
    }
  }

  lemma ResumedPassRecovers(
      d: Daemon, s: Snapshot, owner: map<Path, RelId>, route: map<Path, RelId>, w: World,
      v0: World, s': Snapshot, owner': map<Path, RelId>, route': map<Path, RelId>, v: World, longer: seq<FolderTarget>)
    requires Resumed(d, s, owner, route, w, v0, s', owner', route', v)
    requires Grown(s'.chain, longer, v0, route')
    ensures forall p :: p in v.local && !Deferred(s', owner', route', p) ==>
              (InSync(v, Home(s', owner', route', p)) <==> !Unseen(v0, s', owner', route', p))
    ensures SingleOwners(s.chain, d.w.rows) ==>
              forall k :: OwnsIn(s.chain, d.w.rows, k) && k.path !in d.w.local ==>
                k in v.rows && v.rows[k].status == Trashed && v.rows[k].remoteId == d.w.rows[k].remoteId
    ensures forall a, b :: SamePosition(v.drive, a, b) && a != b && InChain(s'.chain, v.drive.objs[a].place.key.rel) ==>
              SamePosition(d.w.drive, a, b) && d.w.drive.objs[a].place == v.drive.objs[a].place
  {
    forall p | p in v.local && !Deferred(s', owner', route', p)
      ensures InSync(v, Home(s', owner', route', p)) <==> !Unseen(v0, s', owner', route', p)
    {
      HomeInSync(v0, s', owner', route', v, p);
    }
    if SingleOwners(s.chain, d.w.rows) {
      forall k | OwnsIn(s.chain, d.w.rows, k) && k.path !in d.w.local
        ensures k in v.rows && v.rows[k].status == Trashed && v.rows[k].remoteId == d.w.rows[k].remoteId
      {
        TrashingsFinish(d.w, s, owner, route, w, v0, s', owner', route', v, k);
      }
    }
    forall a, b | SamePosition(v.drive, a, b) && a != b && InChain(s'.chain, v.drive.objs[a].place.key.rel)
      ensures SamePosition(d.w.drive, a, b) && d.w.drive.objs[a].place == v.drive.objs[a].place
    {
      InLonger(s'.chain, longer, v.drive.objs[a].place.key.rel);
      NoSecondObject(v0, s', owner', route', v, longer, a, b);
      NoSecondObject(d.w, s, owner, route, w, s'.chain, a, b);
    }
  }

  /** Crash recovery. If the daemon stops anywhere in a pass, between any Drive calls and row
      writes, one later completed pass mirrors every local path it does not defer and whose row
      was not stale already, finishes the interrupted trashings, and leaves a position with two
      objects only if the crashed pass already found both there. */
  lemma CrashRecovery(
      d: Daemon, s: Snapshot, owner: map<Path, RelId>, route: map<Path, RelId>, steps: seq<Step>,
      v0: World, s': Snapshot, owner': map<Path, RelId>, route': map<Path, RelId>, steps': seq<Step>,
      longer: seq<FolderTarget>)
    requires Stamped(d) && Planning(d.w, s, owner, route) && Runnable(d.w, steps)
    requires Follows(Run(d.w, steps), v0) && WellFormed(v0) && AllWaiting(v0) && Grown(s.chain, s'.chain, d.w, route)
    requires SnapshotOf(s', v0.local, v0.drive, v0.rows) && IsPlan(s', owner', route', v0.tasks)
    requires Runnable(v0, steps') && AllDone(Run(v0, steps')) && Grown(s'.chain, longer, v0, route')
    ensures var v := Run(v0, steps');
      && (forall p :: p in v0.local && !Deferred(s', owner', route', p) ==>
            (InSync(v, Home(s', owner', route', p)) <==> !Unseen(v0, s', owner', route', p)))
      && (forall p :: p in v0.local && !Deferred(s', owner', route', p) && Home(s', owner', route', p) !in d.stale ==>
            InSync(v, Home(s', owner', route', p)))
    ensures var v := Run(v0, steps');
      SingleOwners(s.chain, d.w.rows) ==>
        forall k :: OwnsIn(s.chain, d.w.rows, k) && k.path !in d.w.local ==>
          k in v.rows && v.rows[k].status == Trashed && v.rows[k].remoteId == d.w.rows[k].remoteId
    ensures var v := Run(v0, steps');
      forall a, b :: SamePosition(v.drive, a, b) && a != b && InChain(s'.chain, v.drive.objs[a].place.key.rel) ==>
        SamePosition(d.w.drive, a, b) && d.w.drive.objs[a].place == v.drive.objs[a].place
  {
    RestartIsSafe(d, s, owner, route, steps, s', owner', route', v0);
    PlanIsSound(v0, s', owner', route');
    PassMirrors(v0, steps');
    ResumedPassRecovers(d, s, owner, route, Run(d.w, steps), v0, s', owner', route', Run(v0, steps'), longer);
  }
}
