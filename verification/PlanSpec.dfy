/** core/sync/engine.go, the reconciliation plan: what one pass decides for every path,
    as a relation between the pass's inputs and its set of tasks. The planner's loops
    are proved against it in Planner.dfy. */
module PlanSpec {
  import opened SyncTypes
  import opened Merging

  // ---- pickRemote ----

  /** The first candidate with the tracked ID, or the first candidate. */
  function PickIndex(cands: seq<RemoteFile>, base: Option<BaseState>): (i: nat)
    requires cands != []
    ensures i < |cands|
    ensures base.Some? && Holds(cands, base.value.remoteId) ==> cands[i].id == base.value.remoteId
  {
    if base.Some? && Holds(cands, base.value.remoteId)
    then FirstWith(cands, base.value.remoteId, 0)
    else 0
  }

  predicate Holds(cands: seq<RemoteFile>, id: ObjId) {
    exists j :: 0 <= j < |cands| && cands[j].id == id
  }

  function FirstWith(cands: seq<RemoteFile>, id: ObjId, from: nat): (i: nat)
    requires exists j :: from <= j < |cands| && cands[j].id == id
    ensures from <= i < |cands| && cands[i].id == id
    ensures forall j :: from <= j < i ==> cands[j].id != id
    decreases |cands| - from
  {
    if cands[from].id == id then from else FirstWith(cands, id, from + 1)
  }

  function Picked(cands: seq<RemoteFile>, base: Option<BaseState>): Option<RemoteState> {
    if cands == [] then None else Some(StateOf(cands[PickIndex(cands, base)]))
  }

  /** A same-named object whose hash equals the picked one's: safe to sweep. */
  predicate Redundant(cands: seq<RemoteFile>, base: Option<BaseState>, i: int) {
    && 0 <= i < |cands|
    && i != PickIndex(cands, base)
    && cands[i].md5 != NoDigest
    && cands[i].md5 == cands[PickIndex(cands, base)].md5
  }

  // ---- findRemoteTwin ----

  datatype Twin = Twin(rel: RelId, state: RemoteState)

  /** The first candidate of the first chain relation that lists the path at all. */
  function FindTwin(chain: seq<FolderTarget>, listing: Listing, p: Path): (r: Option<Twin>)
    ensures r.None? <==> forall i :: 0 <= i < |chain| ==> ListedAt(listing, Key(chain[i].id, p)) == []
    ensures r.Some? ==>
              exists i :: 0 <= i < |chain| && TwinAt(chain, listing, p, i) && r.value.rel == chain[i].id
                && r.value.state == StateOf(ListedAt(listing, Key(chain[i].id, p))[0])
  {
    if chain == [] then None
    else
      var cands := ListedAt(listing, Key(chain[0].id, p));
      if cands != [] then
        assert TwinAt(chain, listing, p, 0);
        Some(Twin(chain[0].id, StateOf(cands[0])))
      else
        var r := FindTwin(chain[1..], listing, p);
        assert forall i :: 0 <= i < |chain| - 1 ==> chain[1..][i] == chain[i + 1];
        assert r.Some? ==> forall i :: 0 <= i < |chain| - 1 && TwinAt(chain[1..], listing, p, i)
                             ==> TwinAt(chain, listing, p, i + 1);
        r
  }

  predicate TwinAt(chain: seq<FolderTarget>, listing: Listing, p: Path, i: int) {
    && 0 <= i < |chain|
    && ListedAt(listing, Key(chain[i].id, p)) != []
    && forall j :: 0 <= j < i ==> ListedAt(listing, Key(chain[j].id, p)) == []
  }

  // ---- the inputs of one pass ----

  /** What SyncChain collected before planning. unreadable are the local files whose
      content could not be hashed. */
  datatype Snapshot = Snapshot(
    chain: seq<FolderTarget>,
    local: LocalTree,
    listing: Listing,
    base: Rows,
    unreadable: set<Path>)

  predicate InChain(chain: seq<FolderTarget>, rel: RelId) {
    exists i :: 0 <= i < |chain| && chain[i].id == rel
  }

  /** ListFolderRecursive's answer, in any order: at every position of the chain, exactly
      the objects that are there. */
  ghost predicate ListingOf(chain: seq<FolderTarget>, drive: Drive, listing: Listing) {
    && (forall k :: k in listing ==> InChain(chain, k.rel))
    && (forall k, i {:trigger ListedAt(listing, k)[i]} :: 0 <= i < |ListedAt(listing, k)| ==>
          var f := ListedAt(listing, k)[i];
          f.id in drive.objs && drive.objs[f.id].place == At(k) && f == Describe(f.id, drive.objs[f.id]))
    && (forall k, i, j {:trigger ListedAt(listing, k)[i], ListedAt(listing, k)[j]} ::
          0 <= i < j < |ListedAt(listing, k)| ==> ListedAt(listing, k)[i].id != ListedAt(listing, k)[j].id)
    && (forall id {:trigger drive.objs[id]} ::
          (id in drive.objs && drive.objs[id].place.At? && InChain(chain, drive.objs[id].place.key.rel)) ==>
            Holds(ListedAt(listing, drive.objs[id].place.key), id))
  }

  /** The live rows of the chain's relations; TRASHED rows belong to retention. */
  ghost predicate BaseRows(chain: seq<FolderTarget>, rows: Rows, base: Rows) {
    forall k :: (k in base <==> InChain(chain, k.rel) && Live(rows, k)) && (k in base ==> base[k] == rows[k])
  }

  ghost predicate SnapshotOf(s: Snapshot, local: LocalTree, drive: Drive, rows: Rows) {
    s.local == local && ListingOf(s.chain, drive, s.listing) && BaseRows(s.chain, rows, s.base)
  }

  // ---- the plan ----

  /** Which relation tracks each path. With several live owners the source keeps whichever
      its map iteration visits last, so any of them may be recorded. */
  ghost predicate OwnerMap(base: Rows, owner: map<Path, RelId>) {
    && (forall p :: p in owner ==> Key(owner[p], p) in base)
    && (forall k :: k in base ==> k.path in owner)
  }

  function OwnedTask(s: Snapshot, k: Key): Task
    requires k in s.base
  {
    var local := StatAt(s.local, k.path);
    var base := Some(BaseOf(s.base[k]));
    var remote := Picked(ListedAt(s.listing, k), base);
    Task(k, Merge(local, remote, base), local, remote)
  }

  function DedupeTask(k: Key, d: RemoteFile): Task {
    Task(k, Dedupe, None, Some(StateOf(d)))
  }

  function NewTask(s: Snapshot, route: map<Path, RelId>, p: Path): Option<Task>
    requires p in s.local
  {
    var local := Some(Stat(s.local[p]));
    match FindTwin(s.chain, s.listing, p)
    case Some(twin) =>
      var action := if p !in s.unreadable && twin.state.md5 == Md5(s.local[p].bytes) then Adopt else Upload;
      Some(Task(Key(twin.rel, p), action, local, Some(twin.state)))
    case None =>
      if p in route
      then Some(Task(Key(route[p], p), Upload, local, Picked(ListedAt(s.listing, Key(route[p], p)), None)))
      else None  // no account has room: deferred, retried next pass
  }

  /** The tasks one pass plans. route is the relation each twinless new file was given. */
  ghost predicate Planned(s: Snapshot, owner: map<Path, RelId>, route: map<Path, RelId>, t: Task) {
    var p := t.key.path;
    if p in owner then
      && t.key.rel == owner[p]
      && t.key in s.base
      && if t.action == Dedupe
         then exists i :: Redundant(ListedAt(s.listing, t.key), Some(BaseOf(s.base[t.key])), i)
                && t == DedupeTask(t.key, ListedAt(s.listing, t.key)[i])
         else t == OwnedTask(s, t.key) && t.action != Nothing
    else
      p in s.local && NewTask(s, route, p) == Some(t)
  }

  ghost predicate IsPlan(s: Snapshot, owner: map<Path, RelId>, route: map<Path, RelId>, tasks: seq<Task>) {
    && OwnerMap(s.base, owner)
    && (forall i :: 0 <= i < |tasks| ==> Planned(s, owner, route, tasks[i]))
    && (forall t :: Planned(s, owner, route, t) ==> t in tasks)
    && (forall i, j :: 0 <= i < j < |tasks| ==> tasks[i] != tasks[j])
  }

  /** A path the pass leaves alone for lack of room. */
  predicate Deferred(s: Snapshot, owner: map<Path, RelId>, route: map<Path, RelId>, p: Path) {
    p in s.local && p !in owner && FindTwin(s.chain, s.listing, p).None? && p !in route
  }
}
