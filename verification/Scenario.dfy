/** Short lives of the daemon, event by event, from a fresh installation. They show that the
    situations the theorems speak about occur, those in which a promise of the source fails included. */
module Scenario {
  import opened SyncTypes
  import opened Merging
  import opened PlanSpec
  import opened PassMachine
  import opened PlanSound
  import opened Runs
  import opened Stamps
  import opened MirrorLaw
  import opened Ownership
  import opened HoldingTank
  import opened Limits
  import Recovery

  const PATH: Path := "hello.txt"
  const CHAIN := [FolderTarget(1, "a@example.com", 0)]
  const CHAIN_OF_TWO := [FolderTarget(1, "a@example.com", 0), FolderTarget(2, "b@example.com", 1)]
  const KEY := Key(1, PATH)
  const SECOND_KEY := Key(2, PATH)
  const OLD: Bytes := [104, 105]
  const NEW: Bytes := [104, 101, 121]
  const OLD_FILE := LocalFile(OLD, 7 * SECOND)
  const NEW_FILE := LocalFile(NEW, 20 * SECOND)
  const HOLD: map<RelId, int> := map[]

  // ---- lives ----

  ghost predicate Reaches(d: Daemon, n: Daemon) {
    exists events :: CarefulLife(d, HOLD, events) && Later(d, HOLD, events) == n
  }

  lemma Onward(d: Daemon, n: Daemon, e: Event)
    requires Reaches(d, n) && Possible(n.w, HOLD, e) && Careful(n, e)
    ensures Reaches(d, Next(n, HOLD, e))
  {
    var events :| CarefulLife(d, HOLD, events) && Later(d, HOLD, events) == n;
    var m := Next(n, HOLD, e);
    assert [e][1..] == [] && CarefulLife(m, HOLD, []) && Later(m, HOLD, []) == m;
    LifeJoins(d, HOLD, events, [e]);
  }

  /** An event that neither edits a file nor writes a row's stamp. */
  lemma Go(d: Daemon, n: Daemon, e: Event, w: World)
    requires Reaches(d, n) && Possible(n.w, HOLD, e) && !e.Edit? && (forall k :: !Restamps(n.w, e, k))
    requires w == After(n.w, HOLD, e)
    ensures Reaches(d, n.(w := w))
  {
    Onward(d, n, e);
    assert Next(n, HOLD, e).stale == n.stale;
  }

  lemma GoEdit(d: Daemon, n: Daemon, p: Path, f: LocalFile)
    requires Reaches(d, n) && (FileStamp(p, f) in n.stamps ==> n.stamps[FileStamp(p, f)] == f.bytes)
    ensures Reaches(d, Daemon(n.w.(local := n.w.local[p := f]), n.stamps[FileStamp(p, f) := f.bytes], n.stale))
  {
    Onward(d, n, Edit(p, f));
    assert Next(n, HOLD, Edit(p, f)).stale == n.stale;
  }

  /** An event that writes the stamp of one row. */
  lemma GoStamp(d: Daemon, n: Daemon, e: Event, k: Key, w: World)
    requires Reaches(d, n) && Possible(n.w, HOLD, e) && !e.Edit?
    requires (forall l :: Restamps(n.w, e, l) <==> l == k) && w == After(n.w, HOLD, e) && k in w.rows
    ensures Reaches(d, Daemon(w, n.stamps, if Describes(w.local, w.rows, k) then n.stale - {k} else n.stale + {k}))
  {
    Onward(d, n, e);
    assert Next(n, HOLD, e).stale == if Describes(w.local, w.rows, k) then n.stale - {k} else n.stale + {k};
  }

  lemma GoCall(d: Daemon, n: Daemon, id: ObjId)
    requires Reaches(d, n) && CanCall(n.w, 0, id)
    ensures Reaches(d, n.(w := n.w.(drive := DriveAfter(n.w, 0, id), phase := n.w.phase[0 := Called(Answer(n.w, 0, id))])))
  {
    Go(d, n, Work(Call(0, id)), Apply(n.w, Call(0, id)));
  }

  lemma GoHalt(d: Daemon, n: Daemon)
    requires Reaches(d, n)
    ensures Reaches(d, n.(w := n.w.(tasks := [], phase := [])))
  {
    Go(d, n, Halt, n.w.(tasks := [], phase := []));
  }

  lemma GoRemove(d: Daemon, n: Daemon, p: Path)
    requires Reaches(d, n)
    ensures Reaches(d, n.(w := n.w.(local := n.w.local - {p})))
  {
    Go(d, n, Remove(p), n.w.(local := n.w.local - {p}));
  }

  lemma GoOutsideEdit(d: Daemon, n: Daemon, id: ObjId, o: Obj, bytes: Bytes)
    requires Reaches(d, n) && id in n.w.drive.objs && n.w.drive.objs[id] == o && o.place.At?
    ensures Reaches(d, n.(w := n.w.(drive := n.w.drive.(objs := n.w.drive.objs[id := Obj(o.place, Binary(bytes), o.version + 1)]))))
  {
    Go(d, n, OutsideEdit(id, Binary(bytes)),
       n.w.(drive := n.w.drive.(objs := n.w.drive.objs[id := Obj(o.place, Binary(bytes), o.version + 1)])));
  }

  lemma GoUnbury(d: Daemon, n: Daemon, k: Key, o: Obj)
    requires Reaches(d, n) && Idle(n.w) && Live(n.w.rows, k)
    requires n.w.rows[k].remoteId in n.w.drive.objs && n.w.drive.objs[n.w.rows[k].remoteId] == o && o.place.Tank?
    ensures Reaches(d, n.(w := n.w.(drive := n.w.drive.(objs := n.w.drive.objs[n.w.rows[k].remoteId := Moved(o, At(k))]))))
  {
    Go(d, n, Unbury(k), n.w.(drive := n.w.drive.(objs := n.w.drive.objs[n.w.rows[k].remoteId := Moved(o, At(k))])));
  }

  lemma GoReOwn(d: Daemon, n: Daemon, k: Key)
    requires Reaches(d, n) && Idle(n.w) && k in n.w.rows && n.w.rows[k].status == Trashed && k.path in n.w.local
    ensures var rows := n.w.rows[k := ReOwned(n.w.local, k, n.w.rows[k], 0, true)];
      Reaches(d, Daemon(n.w.(rows := rows), n.stamps, if Describes(n.w.local, rows, k) then n.stale - {k} else n.stale + {k}))
  {
    GoStamp(d, n, ReOwn(k, 0, true), k, n.w.(rows := n.w.rows[k := ReOwned(n.w.local, k, n.w.rows[k], 0, true)]));
  }

  lemma GoBegin(d: Daemon, n: Daemon, e: Event)
    requires Reaches(d, n) && e.Begin? && |e.tasks| == 1 && Possible(n.w, HOLD, e)
    ensures Reaches(d, n.(w := n.w.(tasks := e.tasks, phase := [Waiting])))
  {
    assert Waits(1) == [Waiting];
    Go(d, n, e, n.w.(tasks := e.tasks, phase := [Waiting]));
  }

  lemma Here(d: Daemon)
    ensures Reaches(d, d)
  {
    assert CarefulLife(d, HOLD, []) && Later(d, HOLD, []) == d;
  }

  // ---- the plans of the passes below ----

  function UploadOf(rel: RelId, f: LocalFile): Task { Task(Key(rel, PATH), Upload, Some(Stat(f)), None) }

  function UploadPass(chain: seq<FolderTarget>, rel: RelId, f: LocalFile): Event {
    Begin(Snapshot(chain, map[PATH := f], map[], map[], {}), map[], map[PATH := rel], [UploadOf(rel, f)])
  }

  /** A new file nobody lists is uploaded. */
  lemma UploadIsPlanned(w: World, chain: seq<FolderTarget>, rel: RelId, f: LocalFile)
    requires Idle(w) && w.local == map[PATH := f] && InChain(chain, rel)
    requires forall id :: id in w.drive.objs ==> w.drive.objs[id].place.Tank?
    requires forall k :: k in w.rows ==> w.rows[k].status == Trashed
    ensures Possible(w, HOLD, UploadPass(chain, rel, f))
  {
    var e := UploadPass(chain, rel, f);
    assert FindTwin(chain, map[], PATH) == None;
    forall t ensures Planned(e.s, map[], e.route, t) <==> t == UploadOf(rel, f) {}
  }

  function NewObject(rel: RelId, f: LocalFile): Obj { Obj(At(Key(rel, PATH)), Binary(f.bytes), 1) }

  /** The stores after the new file's object was created, with the row still to be written. */
  function SendingWorld(w: World, rel: RelId, f: LocalFile, id: ObjId): World {
    w.(drive := Drive(w.drive.objs[id := NewObject(rel, f)], w.drive.used + {id}),
       tasks := [UploadOf(rel, f)], phase := [Called(Describe(id, NewObject(rel, f)))])
  }

  lemma Sends(d: Daemon, n: Daemon, chain: seq<FolderTarget>, rel: RelId, f: LocalFile, id: ObjId)
    requires Reaches(d, n) && Idle(n.w) && n.w.local == map[PATH := f] && InChain(chain, rel)
    requires forall x :: x in n.w.drive.objs ==> n.w.drive.objs[x].place.Tank?
    requires forall k :: k in n.w.rows ==> n.w.rows[k].status == Trashed
    requires id != "" && id !in n.w.drive.used
    ensures Reaches(d, n.(w := SendingWorld(n.w, rel, f, id)))
  {
    UploadIsPlanned(n.w, chain, rel, f);
    var begun := n.w.(tasks := [UploadOf(rel, f)], phase := [Waiting]);
    assert Waits(1) == [Waiting];
    Go(d, n, UploadPass(chain, rel, f), begun);
    Go(d, n.(w := begun), Work(Call(0, id)), SendingWorld(n.w, rel, f, id));
  }

  /** The row is written, and the pass ends. */
  lemma Records(d: Daemon, n: Daemon, at: Time)
    requires Reaches(d, n) && |n.w.tasks| == 1 && CanWrite(n.w, 0)
    requires WritesRow(n.w.tasks[0]) && n.w.tasks[0].action != Trash
    ensures var k := n.w.tasks[0].key;
      var w := n.w.(rows := RowsAfter(n.w, 0, at), tasks := [], phase := []);
      Reaches(d, Daemon(w, n.stamps, if Describes(w.local, w.rows, k) then n.stale - {k} else n.stale + {k}))
  {
    var k, v := n.w.tasks[0].key, Apply(n.w, Write(0, at));
    GoStamp(d, n, Work(Write(0, at)), k, v);
    Go(d, Daemon(v, n.stamps, if Describes(v.local, v.rows, k) then n.stale - {k} else n.stale + {k}), Halt,
       v.(tasks := [], phase := []));
  }

  function TrashPass(w: World): Event
    requires KEY in w.rows && "n" in w.drive.objs
  {
    var f := Describe("n", w.drive.objs["n"]);
    Begin(Snapshot(CHAIN, map[], map[KEY := [f]], map[KEY := w.rows[KEY]], {}), map[PATH := 1], map[],
          [Task(KEY, Trash, None, Some(StateOf(f)))])
  }

  lemma OneListed(w: World, s: Snapshot)
    requires w.drive.objs.Keys == {"n"} && w.drive.objs["n"].place == At(KEY)
    requires s.chain == CHAIN && s.listing == map[KEY := [Describe("n", w.drive.objs["n"])]]
    ensures ListingOf(s.chain, w.drive, s.listing) && InChain(CHAIN, 1) && ListedAt(s.listing, KEY) == [Describe("n", w.drive.objs["n"])]
    ensures forall b :: PickIndex(ListedAt(s.listing, KEY), b) == 0
  {
    assert CHAIN[0].id == 1;
    assert ListedAt(s.listing, KEY)[0].id == "n";
    assert Holds(ListedAt(s.listing, KEY), "n");
  }

  /** A tracked file that is gone locally is trashed. */
  lemma TrashIsPlanned(w: World)
    requires Idle(w) && w.local == map[] && w.rows.Keys == {KEY} && Live(w.rows, KEY)
    requires w.drive.objs.Keys == {"n"} && w.drive.objs["n"].place == At(KEY)
    ensures Possible(w, HOLD, TrashPass(w))
  {
    var e := TrashPass(w);
    OneListed(w, e.s);
    assert e.tasks[0] == OwnedTask(e.s, KEY);
    forall i ensures !Redundant(ListedAt(e.s.listing, KEY), Some(BaseOf(e.s.base[KEY])), i) {}
    forall t ensures Planned(e.s, e.owner, e.route, t) <==> t == e.tasks[0] {}
  }

  // ---- a file is mirrored ----

  function RowOf(f: LocalFile, id: ObjId, version: nat, md5: Digest, status: Status): FileMeta {
    FileMeta(f.mtime, |f.bytes|, id, version, md5, status, None)
  }

  const FRESH_WORLD := World(map[PATH := OLD_FILE], Drive(map[], {}), map[], [], [])
  const FRESH := Daemon(FRESH_WORLD, map[Stamp(PATH, 7, 2) := OLD], {})
  const HELD := Drive(map["n" := Obj(At(KEY), Binary(OLD), 1)], {"n"})
  const ANSWER := RemoteFile("n", 1, 2, Md5(OLD))
  const MIRRORED := FRESH.(w := World(map[PATH := OLD_FILE], HELD, map[KEY := RowOf(OLD_FILE, "n", 1, Md5(OLD), Synced)], [], []))

  /** The first pass after its Drive call. */
  function Sending(): Daemon { FRESH.(w := SendingWorld(FRESH_WORLD, 1, OLD_FILE, "n")) }

  lemma FreshIsFresh()
    ensures FreshDaemon(FRESH)
  {
    forall p ensures LocalStamped(FRESH, p) {}
  }

  lemma ReachesSending()
    ensures Reaches(FRESH, Sending())
  {
    Here(FRESH);
    assert CHAIN[0].id == 1;
    Sends(FRESH, FRESH, CHAIN, 1, OLD_FILE, "n");
  }

  lemma ReachesMirrored()
    ensures Reaches(FRESH, MIRRORED)
  {
    ReachesSending();
    var n := Sending();
    var w := n.w.(rows := RowsAfter(n.w, 0, 9), tasks := [], phase := []);
    Records(FRESH, n, 9);
    assert w == MIRRORED.w;
  }

  // ---- sent once, although the daemon stopped ----

  const ADOPT := Task(KEY, Adopt, Some(Stat(OLD_FILE)), Some(RemoteState("n", Md5(OLD), 2)))

  function AdoptPass(): Event {
    Begin(Snapshot(CHAIN, map[PATH := OLD_FILE], map[KEY := [ANSWER]], map[], {}), map[], map[], [ADOPT])
  }

  function Stopped(): Daemon { FRESH.(w := FRESH_WORLD.(drive := HELD)) }

  function Adopted(): Daemon {
    Stopped().(w := Stopped().w.(rows := map[KEY := RowOf(OLD_FILE, "n", 0, Md5(OLD), Synced)]))
  }

  lemma AdoptionIsPlanned()
    ensures Possible(Stopped().w, HOLD, AdoptPass())
  {
    var s := AdoptPass().s;
    OneListed(Stopped().w, s);
    assert TwinAt(CHAIN, s.listing, PATH, 0) by { assert CHAIN[0].id == 1; }
    Recovery.TwinAtIsTwin(CHAIN, s.listing, PATH, 0);
    Recovery.TwinIsFirst(CHAIN, s.listing, PATH);
    assert NewTask(s, map[], PATH) == Some(ADOPT);
    forall t ensures Planned(s, map[], map[], t) <==> t == ADOPT {}
  }

  lemma ReachesAdopted()
    ensures Reaches(Stopped(), Adopted())
  {
    Here(Stopped());
    AdoptionIsPlanned();
    GoBegin(Stopped(), Stopped(), AdoptPass());
    var begun := Stopped().w.(tasks := [ADOPT], phase := [Waiting]);
    GoCall(Stopped(), Stopped().(w := begun), "n");
    AdoptCalled(begun);
    Records(Stopped(), Stopped().(w := begun.(phase := [Called(RemoteFile("n", 0, 2, Md5(OLD)))])), 9);
  }

  lemma AdoptCalled(begun: World)
    requires begun == Stopped().w.(tasks := [ADOPT], phase := [Waiting])
    ensures CanCall(begun, 0, "n") && DriveAfter(begun, 0, "n") == begun.drive
    ensures begun.phase[0 := Called(Answer(begun, 0, "n"))] == [Called(RemoteFile("n", 0, 2, Md5(OLD)))]
    ensures var called := begun.(phase := [Called(RemoteFile("n", 0, 2, Md5(OLD)))]);
      CanWrite(called, 0) && called.(rows := RowsAfter(called, 0, 9), tasks := [], phase := []) == Adopted().w
      && Describes(called.local, RowsAfter(called, 0, 9), KEY)
  {
  }

  lemma ReachesStopped()
    ensures Reaches(FRESH, Stopped())
  {
    ReachesSending();
    GoHalt(FRESH, Sending());
    assert Sending().w.(tasks := [], phase := []) == Stopped().w;
  }

  /** A new file is sent, the daemon stops before it can write the row, and the next pass adopts what
      it had sent: at the end the file is in sync, with one object on Drive. */
  lemma SentOnceAndMirrored()
    ensures FreshDaemon(FRESH) && Reaches(FRESH, Stopped()) && Reaches(Stopped(), Adopted())
    ensures Idle(Stopped().w) && Stopped().w.rows == map[]
    ensures InSync(Adopted().w, KEY) && Idle(Adopted().w) && Adopted().w.drive.objs.Keys == {"n"}
  {
    FreshIsFresh();
    ReachesStopped();
    ReachesAdopted();
  }

  // ---- an edit before the stat ----

  /** The file is edited between the Drive call and the stat: the row has the new stamp and the old
      hash, and the merge is blind. */
  function EditedTooEarly(): Daemon {
    Daemon(World(map[PATH := NEW_FILE], HELD, map[KEY := RowOf(NEW_FILE, "n", 1, Md5(OLD), Synced)], [], []),
           map[Stamp(PATH, 7, 2) := OLD, Stamp(PATH, 20, 3) := NEW], {KEY})
  }

  lemma EditBeforeStatIsBlind()
    ensures Reaches(FRESH, EditedTooEarly()) && Blind(EditedTooEarly().w, KEY) && !InSync(EditedTooEarly().w, KEY)
  {
    ReachesSending();
    GoEdit(FRESH, Sending(), PATH, NEW_FILE);
    var edited := Daemon(Sending().w.(local := Sending().w.local[PATH := NEW_FILE]),
                         Sending().stamps[FileStamp(PATH, NEW_FILE) := NEW], {});
    WrittenTooLate(edited);
    Records(FRESH, edited, 9);
  }

  lemma WrittenTooLate(edited: Daemon)
    requires edited.w == Sending().w.(local := Sending().w.local[PATH := NEW_FILE])
    requires edited.stamps == Sending().stamps[FileStamp(PATH, NEW_FILE) := NEW] && edited.stale == {}
    ensures CanWrite(edited.w, 0) && edited.w.tasks == [UploadOf(1, OLD_FILE)]
    ensures edited.w.(rows := RowsAfter(edited.w, 0, 9), tasks := [], phase := []) == EditedTooEarly().w
    ensures edited.stamps == EditedTooEarly().stamps && !Describes(edited.w.local, RowsAfter(edited.w, 0, 9), KEY)
  {
    assert edited.w.local == map[PATH := NEW_FILE];
  }

  // ---- a row that is stranded ----

  function StrandedDaemon(): Daemon { MIRRORED.(w := MIRRORED.w.(local := map[], drive := Drive(map[], {"n"}))) }

  /** The object is permanently deleted on Drive, and then the file locally. */
  lemma StrandedIsReached()
    ensures Reaches(FRESH, StrandedDaemon())
    ensures Stranded(StrandedDaemon().w, KEY, RowOf(OLD_FILE, "n", 1, Md5(OLD), Synced))
  {
    ReachesMirrored();
    var deleted := MIRRORED.(w := MIRRORED.w.(drive := Drive(map[], {"n"})));
    ObjectIsDropped();
    Go(FRESH, MIRRORED, OutsideDelete("n"), deleted.w);
    GoRemove(FRESH, deleted, PATH);
    IsStranded();
  }

  lemma ObjectIsDropped()
    ensures DropObject(HELD, "n") == Drive(map[], {"n"}) && MIRRORED.w.local - {PATH} == map[]
  {
  }

  lemma IsStranded()
    ensures Stranded(StrandedDaemon().w, KEY, RowOf(OLD_FILE, "n", 1, Md5(OLD), Synced))
  {
    EmptyPassKeeps(StrandedDaemon().w);
    forall i ensures Harmless(StrandedDaemon().w, i, KEY) {}
  }

  /** Without a pass under way the run invariant is the row invariant. */
  lemma EmptyPassKeeps(w: World)
    requires Idle(w) && RowsOk(w.drive, w.rows)
    ensures Inv(w)
  {
  }

  // ---- the holding tank ----

  /** The stores after the file, whose object then had content c at version v, was deleted and trashed. */
  function Tanked(c: Bytes, v: nat): Daemon {
    var row := RowOf(OLD_FILE, "n", 1, Md5(OLD), Synced).(status := Trashed, deletedAt := Some(15 * SECOND));
    MIRRORED.(w := World(map[], Drive(map["n" := Obj(Tank(1), Binary(c), v + 1)], {"n"}), map[KEY := row], [], []))
  }

  function Deleted(c: Bytes, v: nat): Daemon {
    MIRRORED.(w := MIRRORED.w.(local := map[], drive := Drive(map["n" := Obj(At(KEY), Binary(c), v)], {"n"})))
  }

  lemma ReachesTanked(c: Bytes, v: nat)
    requires Reaches(FRESH, Deleted(c, v))
    ensures Reaches(FRESH, Tanked(c, v))
  {
    var d := Deleted(c, v);
    TrashIsPlanned(d.w);
    GoBegin(FRESH, d, TrashPass(d.w));
    var begun := d.w.(tasks := TrashPass(d.w).tasks, phase := [Waiting]);
    TrashCalled(c, v, begun);
    GoCall(FRESH, d.(w := begun), "n");
    var called := begun.(drive := DriveAfter(begun, 0, "n"), phase := begun.phase[0 := Called(Answer(begun, 0, "n"))]);
    Buries(d.(w := called), 15 * SECOND);
    TrashWritten(c, v, called);
  }

  lemma TrashCalled(c: Bytes, v: nat, begun: World)
    requires begun == Deleted(c, v).w.(tasks := TrashPass(Deleted(c, v).w).tasks, phase := [Waiting])
    ensures CanCall(begun, 0, "n") && DriveAfter(begun, 0, "n") == Tanked(c, v).w.drive
    ensures |begun.tasks| == 1 && begun.tasks[0].action == Trash && begun.tasks[0].key == KEY
  {
  }

  lemma TrashWritten(c: Bytes, v: nat, called: World)
    requires |called.tasks| == 1 && called.tasks[0].action == Trash && called.tasks[0].key == KEY && CanWrite(called, 0)
    requires called.local == map[] && called.drive == Tanked(c, v).w.drive && called.rows == MIRRORED.w.rows
    ensures called.(rows := RowsAfter(called, 0, 15 * SECOND), tasks := [], phase := []) == Tanked(c, v).w
  {
  }

  lemma Buries(n: Daemon, at: Time)
    requires Reaches(FRESH, n) && |n.w.tasks| == 1 && CanWrite(n.w, 0) && n.w.tasks[0].action == Trash
    ensures Reaches(FRESH, n.(w := n.w.(rows := RowsAfter(n.w, 0, at), tasks := [], phase := [])))
  {
    var v := Apply(n.w, Write(0, at));
    Go(FRESH, n, Work(Write(0, at)), v);
    GoHalt(FRESH, n.(w := v));
  }

  lemma TankedIsReached()
    ensures Reaches(FRESH, Tanked(OLD, 1))
  {
    ReachesMirrored();
    assert MIRRORED.w.local - {PATH} == map[];
    GoRemove(FRESH, MIRRORED, PATH);
    assert MIRRORED.w.(local := map[]) == Deleted(OLD, 1).w;
    ReachesTanked(OLD, 1);
  }

  lemma EditedIsTanked()
    ensures Reaches(FRESH, Tanked(NEW, 2))
  {
    ReachesMirrored();
    GoOutsideEdit(FRESH, MIRRORED, "n", Obj(At(KEY), Binary(OLD), 1), NEW);
    var edited := MIRRORED.w.(drive := HELD.(objs := HELD.objs["n" := Obj(At(KEY), Binary(NEW), 2)]));
    GoRemove(FRESH, MIRRORED.(w := edited), PATH);
    EditedThenGone(edited);
    ReachesTanked(NEW, 2);
  }

  lemma EditedThenGone(w: World)
    requires w == MIRRORED.w.(drive := HELD.(objs := HELD.objs["n" := Obj(At(KEY), Binary(NEW), 2)]))
    ensures w.(local := w.local - {PATH}) == Deleted(NEW, 2).w
  {
    assert w.local - {PATH} == map[];
  }

  /** An object that was edited on Drive before its file was deleted locally lies in the tank under a
      row with another hash. */
  lemma StaleHashIsEntombed()
    ensures var w := Tanked(NEW, 2).w;
      && Reaches(FRESH, Tanked(NEW, 2)) && Entombed(w, KEY, w.rows[KEY], w.drive.objs["n"])
      && DigestOf(w.drive.objs["n"].content) != w.rows[KEY].remoteMd5
  {
    EditedIsTanked();
    var w := Tanked(NEW, 2).w;
    EmptyPassKeeps(w);
    forall i ensures !PendingAt(w, i, KEY) {}
  }

  // ---- a restore that nothing corrects ----

  const RESTORED_STAMPS := map[Stamp(PATH, 7, 2) := OLD, Stamp(PATH, 20, 3) := NEW]

  function Reverted(): Daemon {
    Daemon(World(map[PATH := NEW_FILE], Drive(map["n" := Obj(At(KEY), Binary(OLD), 5)], {"n"}),
                 map[KEY := RowOf(NEW_FILE, "n", 1, Md5(OLD), Synced)], [], []),
           RESTORED_STAMPS, {KEY})
  }

  lemma ReachesRestored()
    ensures Reaches(FRESH, Reverted().(w := Reverted().w.(drive := Tanked(NEW, 2).w.drive)))
  {
    EditedIsTanked();
    var d := Tanked(NEW, 2);
    GoEdit(FRESH, d, PATH, NEW_FILE);
    var downloaded := Daemon(d.w.(local := d.w.local[PATH := NEW_FILE]), d.stamps[FileStamp(PATH, NEW_FILE) := NEW], {});
    OwnedAgain(downloaded);
    GoReOwn(FRESH, downloaded, KEY);
  }

  lemma OwnedAgain(n: Daemon)
    requires n.w == Tanked(NEW, 2).w.(local := Tanked(NEW, 2).w.local[PATH := NEW_FILE])
    requires n.stamps == Tanked(NEW, 2).stamps[FileStamp(PATH, NEW_FILE) := NEW] && n.stale == {}
    ensures Idle(n.w) && KEY in n.w.rows && n.w.rows[KEY].status == Trashed && PATH in n.w.local
    ensures var rows := n.w.rows[KEY := ReOwned(n.w.local, KEY, n.w.rows[KEY], 0, true)];
      n.w.(rows := rows) == Reverted().w.(drive := Tanked(NEW, 2).w.drive) && !Describes(n.w.local, rows, KEY)
    ensures n.stamps == RESTORED_STAMPS
  {
    assert n.w.local == map[PATH := NEW_FILE];
  }

  function BackInPlace(): Daemon {
    Reverted().(w := Reverted().w.(drive := Drive(map["n" := Obj(At(KEY), Binary(NEW), 4)], {"n"})))
  }

  lemma ReachesBackInPlace()
    ensures Reaches(FRESH, BackInPlace())
  {
    ReachesRestored();
    var owned := Reverted().(w := Reverted().w.(drive := Tanked(NEW, 2).w.drive));
    Unburied(owned.w);
    GoUnbury(FRESH, owned, KEY, Obj(Tank(1), Binary(NEW), 3));
  }

  lemma ReachesReverted()
    ensures Reaches(FRESH, Reverted())
  {
    ReachesBackInPlace();
    EditedBack();
    GoOutsideEdit(FRESH, BackInPlace(), "n", Obj(At(KEY), Binary(NEW), 4), OLD);
  }

  lemma EditedBack()
    ensures var drive := BackInPlace().w.drive;
      drive.(objs := drive.objs["n" := Obj(At(KEY), Binary(OLD), 5)]) == Reverted().w.drive
  {
  }

  lemma Unburied(w: World)
    requires w == Reverted().w.(drive := Tanked(NEW, 2).w.drive)
    ensures Idle(w) && Live(w.rows, KEY) && w.rows[KEY].remoteId == "n"
    ensures w.drive.(objs := w.drive.objs["n" := Moved(Obj(Tank(1), Binary(NEW), 3), At(KEY))])
            == Drive(map["n" := Obj(At(KEY), Binary(NEW), 4)], {"n"})
  {
  }

  function IdlePass(w: World): Event
    requires KEY in w.rows && "n" in w.drive.objs
  {
    Begin(Snapshot(CHAIN, w.local, map[KEY := [Describe("n", w.drive.objs["n"])]], map[KEY := w.rows[KEY]], {}),
          map[PATH := 1], map[], [])
  }

  /** The restored content is not on Drive, and a pass that finds nothing to do is complete: once a restore
      brought back an object that had been edited on Drive, and Drive goes back to what the row
      remembers, the path stays out of sync. */
  lemma StaleRestoreStaysOut()
    ensures Reaches(FRESH, Reverted()) && Blind(Reverted().w, KEY)
    ensures var w := Reverted().w;
      forall s :: SnapshotOf(s, w.local, w.drive, w.rows) && InChain(s.chain, KEY.rel) ==>
        KEY in s.base && OwnedTask(s, KEY).action == Nothing
    ensures Possible(Reverted().w, HOLD, IdlePass(Reverted().w))
    ensures var v := After(Reverted().w, HOLD, IdlePass(Reverted().w)); AllDone(v) && !InSync(v, KEY)
  {
    ReachesReverted();
    RevertedIsBlind();
    NothingIsPlanned(Reverted().w);
    IdleIsPlanned(Reverted().w);
    IdleChangesNothing(Reverted().w, IdlePass(Reverted().w));
  }

  lemma RevertedIsBlind()
    ensures var w := Reverted().w; RowsOk(w.drive, w.rows) && Blind(w, KEY) && !InSync(w, KEY)
  {
  }

  lemma IdleChangesNothing(w: World, e: Event)
    requires e.Begin? && e.tasks == [] && Possible(w, HOLD, e)
    ensures var v := After(w, HOLD, e); AllDone(v) && (InSync(v, KEY) <==> InSync(w, KEY))
  {
  }

  lemma NothingIsPlanned(w: World)
    requires RowsOk(w.drive, w.rows) && Blind(w, KEY)
    ensures forall s :: SnapshotOf(s, w.local, w.drive, w.rows) && InChain(s.chain, KEY.rel) ==>
              KEY in s.base && OwnedTask(s, KEY).action == Nothing
  {
    forall s | SnapshotOf(s, w.local, w.drive, w.rows) && InChain(s.chain, KEY.rel)
      ensures KEY in s.base && OwnedTask(s, KEY).action == Nothing
    {
      BlindDoesNothing(w, s, KEY);
    }
  }

  lemma IdleIsPlanned(w: World)
    requires Idle(w) && w.local.Keys == {PATH} && w.rows.Keys == {KEY} && Live(w.rows, KEY)
    requires w.drive.objs.Keys == {"n"} && w.drive.objs["n"].place == At(KEY)
    requires forall s :: SnapshotOf(s, w.local, w.drive, w.rows) && InChain(s.chain, KEY.rel) ==>
               KEY in s.base && OwnedTask(s, KEY).action == Nothing
    ensures Possible(w, HOLD, IdlePass(w))
  {
    var e := IdlePass(w);
    OneListed(w, e.s);
    assert SnapshotOf(e.s, w.local, w.drive, w.rows);
    assert OwnedTask(e.s, KEY).action == Nothing;
    forall i ensures !Redundant(ListedAt(e.s.listing, KEY), Some(BaseOf(e.s.base[KEY])), i) {}
    forall t ensures !Planned(e.s, e.owner, e.route, t) {}
  }

  // ---- a path that is created anew ----

  /** The path is created anew after its deletion, and a pass over the given chain sends it to rel. */
  function Recreated(rel: RelId): Daemon {
    var d := Tanked(OLD, 1);
    var drive := Drive(d.w.drive.objs["m" := Obj(At(Key(rel, PATH)), Binary(NEW), 1)], {"n", "m"});
    Daemon(World(map[PATH := NEW_FILE], drive, d.w.rows[Key(rel, PATH) := RowOf(NEW_FILE, "m", 1, Md5(NEW), Synced)], [], []),
           RESTORED_STAMPS, {})
  }

  lemma ReachesRecreated(chain: seq<FolderTarget>, rel: RelId)
    requires InChain(chain, rel)
    ensures Reaches(FRESH, Recreated(rel))
  {
    TankedIsReached();
    var d := Tanked(OLD, 1);
    GoEdit(FRESH, d, PATH, NEW_FILE);
    var edited := Daemon(d.w.(local := d.w.local[PATH := NEW_FILE]), d.stamps[FileStamp(PATH, NEW_FILE) := NEW], {});
    assert edited.w.local == map[PATH := NEW_FILE];
    Sends(FRESH, edited, chain, rel, NEW_FILE, "m");
    var n := edited.(w := SendingWorld(edited.w, rel, NEW_FILE, "m"));
    RecreatedWritten(rel, n);
    Records(FRESH, n, 25 * SECOND);
  }

  lemma RecreatedWritten(rel: RelId, n: Daemon)
    requires n.w == SendingWorld(Tanked(OLD, 1).w.(local := map[PATH := NEW_FILE]), rel, NEW_FILE, "m")
    requires n.stamps == Tanked(OLD, 1).stamps[FileStamp(PATH, NEW_FILE) := NEW] && n.stale == {}
    ensures CanWrite(n.w, 0) && n.stamps == RESTORED_STAMPS
    ensures n.w.(rows := RowsAfter(n.w, 0, 25 * SECOND), tasks := [], phase := []) == Recreated(rel).w
    ensures Describes(n.w.local, RowsAfter(n.w, 0, 25 * SECOND), Key(rel, PATH))
  {
  }

  /** On the same relation, the object in the tank loses its row. */
  lemma RecreatedLeavesAnOrphan()
    ensures Reaches(FRESH, Recreated(1)) && Orphan(Recreated(1).w, "n", Binary(OLD))
  {
    assert CHAIN[0].id == 1;
    ReachesRecreated(CHAIN, 1);
    IsOrphan();
  }

  lemma IsOrphan()
    ensures Orphan(Recreated(1).w, "n", Binary(OLD))
  {
    var w := Recreated(1).w;
    EmptyPassKeeps(w);
    forall i ensures Unclaimed(w, i, "n") {}
  }

  function TwiceOwned(): Daemon {
    var d := Recreated(2);
    Daemon(World(map[PATH := LocalFile(OLD, 30 * SECOND)], d.w.drive,
                 d.w.rows[KEY := RowOf(LocalFile(OLD, 30 * SECOND), "n", 1, Md5(OLD), Synced)], [], []),
           RESTORED_STAMPS[Stamp(PATH, 30, 2) := OLD], {})
  }

  /** On another relation of the chain, restoring the deleted one makes a second owner. */
  lemma ReachesTwiceOwned()
    ensures Reaches(FRESH, TwiceOwned())
  {
    assert CHAIN_OF_TWO[1].id == 2;
    ReachesRecreated(CHAIN_OF_TWO, 2);
    var d, file := Recreated(2), LocalFile(OLD, 30 * SECOND);
    assert FileStamp(PATH, file) == Stamp(PATH, 30, 2);
    GoEdit(FRESH, d, PATH, file);
    var n := Daemon(d.w.(local := d.w.local[PATH := file]), d.stamps[FileStamp(PATH, file) := OLD], {});
    OwnedTwice(n);
    GoReOwn(FRESH, n, KEY);
  }

  lemma RestoreMakesTwoOwners()
    ensures Reaches(FRESH, TwiceOwned()) && !SingleOwners(CHAIN_OF_TWO, TwiceOwned().w.rows)
  {
    ReachesTwiceOwned();
    TwoOwners();
  }

  lemma OwnedTwice(n: Daemon)
    requires n.w == Recreated(2).w.(local := Recreated(2).w.local[PATH := LocalFile(OLD, 30 * SECOND)])
    ensures Idle(n.w) && KEY in n.w.rows && n.w.rows[KEY].status == Trashed && PATH in n.w.local
    ensures var rows := n.w.rows[KEY := ReOwned(n.w.local, KEY, n.w.rows[KEY], 0, true)];
      n.w.(rows := rows) == TwiceOwned().w && Describes(n.w.local, rows, KEY)
  {
    assert n.w.local == map[PATH := LocalFile(OLD, 30 * SECOND)];
  }

  lemma TwoOwners()
    ensures !SingleOwners(CHAIN_OF_TWO, TwiceOwned().w.rows)
  {
    assert CHAIN_OF_TWO[0].id == 1 && CHAIN_OF_TWO[1].id == 2;
    assert OwnsIn(CHAIN_OF_TWO, TwiceOwned().w.rows, KEY) && OwnsIn(CHAIN_OF_TWO, TwiceOwned().w.rows, SECOND_KEY);
  }
}
