/** core/sync/engine.go: the loops of buildChainTasks, pickRemote and findRemoteTwin, proved
    to compute the plan that PlanSpec describes. */
module Planner {
  import opened SyncTypes
  import opened Merging
  import opened PlanSpec
  import opened StateStore
  import opened Space
  import opened Routing

  // ---- pickRemote ----

  ghost predicate DistinctIds(cands: seq<RemoteFile>) {
    forall i, j :: 0 <= i < j < |cands| ==> cands[i].id != cands[j].id
  }

  ghost predicate IsDupe(cands: seq<RemoteFile>, base: Option<BaseState>, d: RemoteFile) {
    exists i :: Redundant(cands, base, i) && d == cands[i]
  }

  /** dupes are exactly the redundant candidates. */
  ghost predicate AreDupes(cands: seq<RemoteFile>, base: Option<BaseState>, dupes: seq<RemoteFile>) {
    && (forall n :: 0 <= n < |dupes| ==> IsDupe(cands, base, dupes[n]))
    && (forall i :: Redundant(cands, base, i) ==> cands[i] in dupes)
  }

  method PickRemote(cands: seq<RemoteFile>, base: Option<BaseState>) returns (rs: Option<RemoteState>, dupes: seq<RemoteFile>)
    ensures rs == Picked(cands, base)
    ensures AreDupes(cands, base, dupes)
    ensures DistinctIds(cands) ==> DistinctIds(dupes)
  {
    dupes := [];
    if cands == [] { return None, []; }
    var pick := 0;
    if base.Some? {
      var i := 0;
      while i < |cands| && cands[i].id != base.value.remoteId
        invariant 0 <= i <= |cands|
        invariant forall j :: 0 <= j < i ==> cands[j].id != base.value.remoteId
      {
        i := i + 1;
      }
      if i < |cands| { pick := i; }
      assert i < |cands| ==> Holds(cands, base.value.remoteId);
    }
    assert pick == PickIndex(cands, base);
    var chosen := cands[pick];
    ghost var from: seq<nat> := [];
    var i := 0;
    while i < |cands|
      invariant 0 <= i <= |cands| && Gathered(cands, base, from, dupes, i)
    {
      var c := cands[i];
      GatherOne(cands, base, from, dupes, i);
      if i != pick && c.md5 != NoDigest && c.md5 == chosen.md5 {
        dupes, from := dupes + [c], from + [i];
      }
      i := i + 1;
    }
    GatheredAll(cands, base, from, dupes);
    return Some(StateOf(chosen)), dupes;
  }

  /** dupes are the redundant ones of the first i candidates, in order, at the positions in from. */
  ghost predicate Gathered(cands: seq<RemoteFile>, base: Option<BaseState>, from: seq<nat>, dupes: seq<RemoteFile>, i: nat)
    requires i <= |cands|
  {
    && |from| == |dupes|
    && (forall n :: 0 <= n < |from| ==> from[n] < i && Redundant(cands, base, from[n]) && dupes[n] == cands[from[n]])
    && (forall n, m :: 0 <= n < m < |from| ==> from[n] < from[m])
    && (forall j :: 0 <= j < i && Redundant(cands, base, j) ==> cands[j] in dupes)
  }

  lemma GatherOne(cands: seq<RemoteFile>, base: Option<BaseState>, from: seq<nat>, dupes: seq<RemoteFile>, i: nat)
    requires i < |cands| && Gathered(cands, base, from, dupes, i)
    ensures if Redundant(cands, base, i) then Gathered(cands, base, from + [i], dupes + [cands[i]], i + 1)
            else Gathered(cands, base, from, dupes, i + 1)
  {
  }

  lemma GatheredAll(cands: seq<RemoteFile>, base: Option<BaseState>, from: seq<nat>, dupes: seq<RemoteFile>)
    requires Gathered(cands, base, from, dupes, |cands|)
    ensures AreDupes(cands, base, dupes) && (DistinctIds(cands) ==> DistinctIds(dupes))
  {
    forall n | 0 <= n < |dupes| ensures IsDupe(cands, base, dupes[n]) {
      assert Redundant(cands, base, from[n]) && dupes[n] == cands[from[n]];
    }
  }

  // ---- findRemoteTwin ----

  lemma {:induction false} TwinFromFirst(chain: seq<FolderTarget>, listing: Listing, p: Path, i: nat)
    requires TwinAt(chain, listing, p, i)
    ensures FindTwin(chain, listing, p) == Some(Twin(chain[i].id, StateOf(ListedAt(listing, Key(chain[i].id, p))[0])))
    decreases i
  {
    if i > 0 {
      assert ListedAt(listing, Key(chain[0].id, p)) == [];
      forall j | 0 <= j < |chain| - 1 ensures chain[1..][j] == chain[j + 1] {}
      TwinFromFirst(chain[1..], listing, p, i - 1);
    }
  }

  /** The loop runs over the chain as it is by now; relations provisioned during the pass
      have nothing listed. */
  method FindRemoteTwin(chain: seq<FolderTarget>, ghost chain0: seq<FolderTarget>, listing: Listing, p: Path)
    returns (r: Option<Twin>)
    requires |chain0| <= |chain| && chain[..|chain0|] == chain0
    requires forall i :: |chain0| <= i < |chain| ==> ListedAt(listing, Key(chain[i].id, p)) == []
    ensures r == FindTwin(chain0, listing, p)
  {
    var i := 0;
    while i < |chain|
      invariant 0 <= i <= |chain|
      invariant forall j :: 0 <= j < i ==> ListedAt(listing, Key(chain[j].id, p)) == []
    {
      var cands := ListedAt(listing, Key(chain[i].id, p));
      if cands != [] {
        assert chain[i] == chain[..|chain0|][i];
        assert forall j :: 0 <= j < i ==> chain[j] == chain[..|chain0|][j];
        TwinFromFirst(chain0, listing, p, i);
        return Some(Twin(chain[i].id, StateOf(cands[0])));
      }
      i := i + 1;
    }
    assert forall j :: 0 <= j < |chain0| ==> chain0[j] == chain[j];
    return None;
  }

  /** The account a relation of the chain lives on. */
  ghost function AccountOf(chain: seq<FolderTarget>, rel: RelId): Account {
    if chain == [] then "" else if chain[0].id == rel then chain[0].account else AccountOf(chain[1..], rel)
  }

  // ---- the plan, path by path ----

  /** ts are exactly the planned tasks of one path. */
  ghost predicate TasksOf(s: Snapshot, owner: map<Path, RelId>, route: map<Path, RelId>, p: Path, ts: seq<Task>) {
    && (forall i :: 0 <= i < |ts| ==> ts[i].key.path == p && Planned(s, owner, route, ts[i]))
    && (forall t :: PlannedAt(s, owner, route, t, p) ==> t in ts)
    && (forall i, j :: 0 <= i < j < |ts| ==> ts[i] != ts[j])
  }

  ghost predicate PlannedAt(s: Snapshot, owner: map<Path, RelId>, route: map<Path, RelId>, t: Task, p: Path) {
    t.key.path == p && Planned(s, owner, route, t)
  }

  /** tasks are exactly the planned tasks of the paths dealt with so far. */
  ghost predicate PlannedSoFar(s: Snapshot, owner: map<Path, RelId>, route: map<Path, RelId>, past: set<Path>, tasks: seq<Task>) {
    && (forall i :: 0 <= i < |tasks| ==> tasks[i].key.path in past && Planned(s, owner, route, tasks[i]))
    && (forall p :: p in past ==> AllPlanned(s, owner, route, p, tasks))
    && (forall i, j :: 0 <= i < j < |tasks| ==> tasks[i] != tasks[j])
  }

  ghost predicate AllPlanned(s: Snapshot, owner: map<Path, RelId>, route: map<Path, RelId>, p: Path, tasks: seq<Task>) {
    forall t :: PlannedAt(s, owner, route, t, p) ==> t in tasks
  }

  lemma PlanOneMore(s: Snapshot, owner: map<Path, RelId>, route: map<Path, RelId>, past: set<Path>, tasks: seq<Task>,
                    p: Path, ts: seq<Task>)
    requires PlannedSoFar(s, owner, route, past, tasks) && p !in past && TasksOf(s, owner, route, p, ts)
    ensures PlannedSoFar(s, owner, route, past + {p}, tasks + ts)
  {
    forall q | q in past + {p} ensures AllPlanned(s, owner, route, q, tasks + ts) {
      if q in past { assert AllPlanned(s, owner, route, q, tasks); }
    }
  }

  /** Routing one path does not change what is planned for the others. */
  lemma RouteOther(s: Snapshot, owner: map<Path, RelId>, route: map<Path, RelId>, past: set<Path>, tasks: seq<Task>,
                   p: Path, rel: RelId)
    requires PlannedSoFar(s, owner, route, past, tasks) && p !in past
    ensures PlannedSoFar(s, owner, route[p := rel], past, tasks)
  {
    var route' := route[p := rel];
    forall t: Task | t.key.path in past ensures Planned(s, owner, route', t) == Planned(s, owner, route, t) {}
    forall q | q in past ensures AllPlanned(s, owner, route', q, tasks) {
      assert AllPlanned(s, owner, route, q, tasks);
      forall t | PlannedAt(s, owner, route', t, q) ensures t in tasks { assert PlannedAt(s, owner, route, t, q); }
    }
  }

  lemma PlannedAll(s: Snapshot, owner: map<Path, RelId>, route: map<Path, RelId>, tasks: seq<Task>)
    requires OwnerMap(s.base, owner) && PlannedSoFar(s, owner, route, owner.Keys + (s.local.Keys - owner.Keys), tasks)
    ensures IsPlan(s, owner, route, tasks)
  {
    forall t | Planned(s, owner, route, t) ensures t in tasks {
      var p := t.key.path;
      assert p in owner.Keys + (s.local.Keys - owner.Keys);
      assert AllPlanned(s, owner, route, p, tasks) && PlannedAt(s, owner, route, t, p);
    }
  }

  method DedupeTasks(k: Key, dupes: seq<RemoteFile>) returns (ts: seq<Task>)
    ensures |ts| == |dupes| && forall n :: 0 <= n < |dupes| ==> ts[n] == DedupeTask(k, dupes[n])
  {
    ts := [];
    var i := 0;
    while i < |dupes|
      invariant 0 <= i <= |dupes| && |ts| == i
      invariant forall n :: 0 <= n < i ==> ts[n] == DedupeTask(k, dupes[n])
    {
      ts := ts + [DedupeTask(k, dupes[i])];
      i := i + 1;
    }
  }

  lemma DedupesAreIn(s: Snapshot, owner: map<Path, RelId>, route: map<Path, RelId>, k: Key, dupes: seq<RemoteFile>,
                     ts: seq<Task>, t: Task)
    requires k in s.base && k.path in owner && owner[k.path] == k.rel
    requires AreDupes(ListedAt(s.listing, k), Some(BaseOf(s.base[k])), dupes)
    requires |ts| == |dupes| && forall n :: 0 <= n < |dupes| ==> ts[n] == DedupeTask(k, dupes[n])
    requires PlannedAt(s, owner, route, t, k.path) && t.action == Dedupe
    ensures t in ts
  {
    var cands, base := ListedAt(s.listing, k), Some(BaseOf(s.base[k]));
    var n :| Redundant(cands, base, n) && t == DedupeTask(k, cands[n]);
    var m :| 0 <= m < |dupes| && dupes[m] == cands[n];
    assert ts[m] == t;
  }

  lemma DedupeIsPlanned(s: Snapshot, owner: map<Path, RelId>, route: map<Path, RelId>, k: Key, dupes: seq<RemoteFile>, n: nat)
    requires k in s.base && k.path in owner && owner[k.path] == k.rel
    requires AreDupes(ListedAt(s.listing, k), Some(BaseOf(s.base[k])), dupes) && n < |dupes|
    ensures Planned(s, owner, route, DedupeTask(k, dupes[n]))
  {
  }

  lemma DedupesDistinct(k: Key, dupes: seq<RemoteFile>, ts: seq<Task>)
    requires DistinctIds(dupes)
    requires |ts| == |dupes| && forall n :: 0 <= n < |dupes| ==> ts[n] == DedupeTask(k, dupes[n])
    ensures forall i, j :: 0 <= i < j < |ts| ==> ts[i] != ts[j]
  {
    forall i, j | 0 <= i < j < |ts| ensures ts[i] != ts[j] {
      assert ts[i].remote.value.id == dupes[i].id && ts[j].remote.value.id == dupes[j].id;
    }
  }

  lemma OwnedGroup(s: Snapshot, owner: map<Path, RelId>, route: map<Path, RelId>, k: Key, dupes: seq<RemoteFile>,
                   ts: seq<Task>, all: seq<Task>)
    requires k in s.base && k.path in owner && owner[k.path] == k.rel
    requires AreDupes(ListedAt(s.listing, k), Some(BaseOf(s.base[k])), dupes) && DistinctIds(dupes)
    requires |ts| == |dupes| && forall n :: 0 <= n < |dupes| ==> ts[n] == DedupeTask(k, dupes[n])
    requires all == if OwnedTask(s, k).action == Nothing then ts else ts + [OwnedTask(s, k)]
    ensures TasksOf(s, owner, route, k.path, all)
  {
    var last := OwnedTask(s, k);
    assert last.action != Dedupe;
    forall i | 0 <= i < |all| ensures all[i].key.path == k.path && Planned(s, owner, route, all[i]) {
      if i < |ts| { DedupeIsPlanned(s, owner, route, k, dupes, i); }
    }
    forall t | PlannedAt(s, owner, route, t, k.path) ensures t in all {
      if t.action == Dedupe { DedupesAreIn(s, owner, route, k, dupes, ts, t); }
    }
    DedupesDistinct(k, dupes, ts);
  }

  /** By how much the upload of an owned path exceeds what its row records. */
  ghost function GrowthOf(s: Snapshot, k: Key): int
    requires k in s.base
  {
    if OwnedTask(s, k).action != Nothing && k.path in s.local then |s.local[k.path].bytes| - s.base[k].localSize else 0
  }

  /** The tasks of one owned path: its dedupes, then what the merge says. */
  method PlanOwnedPath(s: Snapshot, ghost owner: map<Path, RelId>, ghost route: map<Path, RelId>, k: Key)
    returns (ts: seq<Task>, growth: int)
    requires k in s.base && k.path in owner && owner[k.path] == k.rel
    requires DistinctIds(ListedAt(s.listing, k))
    ensures TasksOf(s, owner, route, k.path, ts)
    ensures growth == GrowthOf(s, k)
  {
    var base := Some(BaseOf(s.base[k]));
    var rs, dupes := PickRemote(ListedAt(s.listing, k), base);
    ts := DedupeTasks(k, dupes);
    ghost var sweeps := ts;
    var local := StatAt(s.local, k.path);
    var action := Merge(local, rs, base);
    growth := 0;
    if action != Nothing {
      if local.Some? { growth := local.value.size - base.value.size; }
      ts := ts + [Task(k, action, local, rs)];
    }
    OwnedGroup(s, owner, route, k, dupes, sweeps, ts);
  }

  lemma NewGroup(s: Snapshot, owner: map<Path, RelId>, route: map<Path, RelId>, p: Path)
    requires p in s.local && p !in owner
    ensures TasksOf(s, owner, route, p, match NewTask(s, route, p) case Some(t) => [t] case None => [])
  {
  }

  lemma TwinGroup(s: Snapshot, owner: map<Path, RelId>, route: map<Path, RelId>, p: Path, twin: Twin)
    requires p in s.local && p !in owner && FindTwin(s.chain, s.listing, p) == Some(twin)
    ensures var action := if p !in s.unreadable && twin.state.md5 == Md5(s.local[p].bytes) then Adopt else Upload;
      TasksOf(s, owner, route, p, [Task(Key(twin.rel, p), action, Some(Stat(s.local[p])), Some(twin.state))])
  {
    NewGroup(s, owner, route, p);
  }

  lemma ConsumeKeeps(b: Books, w: Window, a: Account, size: int)
    requires Steady(b, w) && NonNegative(b, w)
    ensures var c := ConsumeBooks(b, a, size); Steady(c, w) && NonNegative(c, w) && Tighter(b, c, w)
  {
    var c := ConsumeBooks(b, a, size);
    forall x ensures SteadyAt(c, w, x) && Settled(c, w, x) >= 0 && TighterAt(b, c, w, x) {
      assert SteadyAt(b, w, x) && Settled(b, w, x) >= 0;
    }
  }

  lemma TighterIsAsLow(b: Books, c: Books, w: Window, accounts: seq<Account>, t: Threshold, inChain: set<Account>)
    requires t.den > 0 && Tighter(b, c, w) && NoneRoomy(b, accounts, w, t, inChain)
    ensures NoneRoomy(c, accounts, w, t, inChain)
  {
    forall i | 0 <= i < |accounts| ensures Reading(c, w, accounts[i]) == Reading(b, w, accounts[i]) {
      assert TighterAt(b, c, w, accounts[i]);
    }
  }

  lemma SameIsTighter(b: Books, w: Window)
    ensures Tighter(b, b, w)
  {
    forall a ensures TighterAt(b, b, w, a) {}
  }

  ghost predicate Stored(chain: seq<FolderTarget>, targets: seq<TargetInfo>) {
    forall i :: 0 <= i < |chain| ==> StoredId(targets, chain[i].id)
  }

  ghost predicate StoredId(targets: seq<TargetInfo>, id: RelId) {
    exists j :: 0 <= j < |targets| && targets[j].target.id == id
  }

  /** The chain grown from chain0 by relations that nothing in the pass's inputs mentions. */
  ghost predicate GrownFrom(chain0: seq<FolderTarget>, chain: seq<FolderTarget>) {
    && |chain0| <= |chain| && chain[..|chain0|] == chain0
    && forall i, j :: 0 <= i < |chain0| <= j < |chain| ==> chain0[i].id != chain[j].id
  }

  lemma StillGrown(chain0: seq<FolderTarget>, chain1: seq<FolderTarget>, chain2: seq<FolderTarget>,
                   targets1: seq<TargetInfo>, targets2: seq<TargetInfo>)
    requires GrownFrom(chain0, chain1) && Stored(chain0, targets1) && Extended(chain1, chain2, targets1, targets2)
    ensures GrownFrom(chain0, chain2) && Stored(chain0, targets2)
  {
    assert chain2[..|chain0|] == chain2[..|chain1|][..|chain0|];
    forall i, j | 0 <= i < |chain0| <= j < |chain2| ensures chain0[i].id != chain2[j].id {
      if j < |chain1| {
        assert chain2[j] == chain2[..|chain1|][j];
      } else {
        assert StoredId(targets1, chain0[i].id) && NewIn(targets1, chain2[j].id);
      }
    }
    forall i | 0 <= i < |chain0| ensures StoredId(targets2, chain0[i].id) {
      assert StoredId(targets1, chain0[i].id);
      var n :| 0 <= n < |targets1| && targets1[n].target.id == chain0[i].id;
      assert targets2[n] == targets2[..|targets1|][n];
    }
  }

  lemma StaysInChain(chain1: seq<FolderTarget>, chain2: seq<FolderTarget>, route: map<Path, RelId>)
    requires |chain1| <= |chain2| && chain2[..|chain1|] == chain1
    requires forall p :: p in route ==> InChain(chain1, route[p])
    ensures forall p :: p in route ==> InChain(chain2, route[p])
  {
    forall p | p in route ensures InChain(chain2, route[p]) {
      var i :| 0 <= i < |chain1| && chain1[i].id == route[p];
      assert chain2[i] == chain2[..|chain1|][i];
    }
  }

  lemma GrownListsNothing(s: Snapshot, chain: seq<FolderTarget>, p: Path)
    requires GrownFrom(s.chain, chain) && (forall k :: k in s.listing ==> InChain(s.chain, k.rel))
    ensures forall i :: |s.chain| <= i < |chain| ==> ListedAt(s.listing, Key(chain[i].id, p)) == []
  {
    forall i | |s.chain| <= i < |chain| ensures ListedAt(s.listing, Key(chain[i].id, p)) == [] {
      assert !InChain(s.chain, chain[i].id);
    }
  }

  /** Planning after the new paths in done: everything planned for them and for the owned paths is
      in tasks, and the chain grew by new relations, to which everything is routed. */
  ghost predicate Halfway(s: Snapshot, owner: map<Path, RelId>, route: map<Path, RelId>, done: set<Path>, tasks: seq<Task>,
                          chain0: seq<FolderTarget>, chain: seq<FolderTarget>,
                          targets0: seq<TargetInfo>, targets: seq<TargetInfo>) {
    && PlannedSoFar(s, owner, route, owner.Keys + done, tasks) && route.Keys <= done
    && Extended(chain0, chain, targets0, targets)
    && forall p :: p in route ==> InChain(chain, route[p])
  }

  lemma HalfwayNone(s: Snapshot, owner: map<Path, RelId>, tasks: seq<Task>, chain: seq<FolderTarget>, targets: seq<TargetInfo>)
    requires PlannedSoFar(s, owner, map[], owner.Keys, tasks)
    ensures Halfway(s, owner, map[], {}, tasks, chain, chain, targets, targets)
  {
    assert owner.Keys + {} == owner.Keys;
  }

  lemma HalfwayOneMore(s: Snapshot, owner: map<Path, RelId>, route: map<Path, RelId>, done: set<Path>, tasks: seq<Task>,
                       p: Path, ts: seq<Task>, rel: RelId,
                       chain0: seq<FolderTarget>, chain1: seq<FolderTarget>, chain2: seq<FolderTarget>,
                       targets0: seq<TargetInfo>, targets1: seq<TargetInfo>, targets2: seq<TargetInfo>)
    requires Halfway(s, owner, route, done, tasks, chain0, chain1, targets0, targets1) && chain0 != []
    requires p !in owner && p !in done
    requires Extended(chain1, chain2, targets1, targets2) && (rel != 0 ==> InChain(chain2, rel))
    requires TasksOf(s, owner, if rel == 0 then route else route[p := rel], p, ts)
    ensures Halfway(s, owner, if rel == 0 then route else route[p := rel], done + {p}, tasks + ts, chain0, chain2, targets0, targets2)
  {
    ExtendedTwice(chain0, chain1, chain2, targets0, targets1, targets2);
    StaysInChain(chain1, chain2, route);
    var route' := if rel == 0 then route else route[p := rel];
    if rel != 0 { RouteOther(s, owner, route, owner.Keys + done, tasks, p, rel); }
    PlanOneMore(s, owner, route', owner.Keys + done, tasks, p, ts);
    assert owner.Keys + (done + {p}) == owner.Keys + done + {p};
  }

  /** Every authenticated account is too full for the local file at p. */
  ghost predicate NoRoomFor(s: Snapshot, p: Path, b: Books, accounts: seq<Account>, w: Window, t: Threshold)
    requires p in s.local && t.den > 0
  {
    FullFor(b, accounts, w, t, |s.local[p].bytes|)
  }

  /** A non-empty new file that no relation lists, and that was given no relation. */
  predicate Unplaced(s: Snapshot, route: map<Path, RelId>, p: Path) {
    p in s.local && p !in route && FindTwin(s.chain, s.listing, p) == None && s.local[p].bytes != []
  }

  ghost predicate NoRoomForUnplaced(s: Snapshot, done: set<Path>, route: map<Path, RelId>, b: Books,
                                    accounts: seq<Account>, w: Window, t: Threshold)
    requires t.den > 0
  {
    forall p :: p in done && Unplaced(s, route, p) ==> NoRoomFor(s, p, b, accounts, w, t)
  }

  lemma UnplacedOneMore(s: Snapshot, done: set<Path>, route0: map<Path, RelId>, route: map<Path, RelId>, b: Books, c: Books,
                        accounts: seq<Account>, w: Window, t: Threshold, p: Path, rel: RelId)
    requires t.den > 0 && route == if rel == 0 then route0 else route0[p := rel]
    requires NoRoomForUnplaced(s, done, route0, b, accounts, w, t) && Tighter(b, c, w)
    requires Unplaced(s, route, p) ==> NoRoomFor(s, p, b, accounts, w, t)
    ensures NoRoomForUnplaced(s, done + {p}, route, c, accounts, w, t)
  {
    forall q | q in done + {p} && Unplaced(s, route, q) ensures NoRoomFor(s, q, c, accounts, w, t) {
      assert q != p ==> Unplaced(s, route0, q);
      TighterStaysFull(b, c, accounts, w, t, |s.local[q].bytes|);
    }
  }

  /** ps names every path of done, once. */
  ghost predicate Visited(ps: seq<Path>, done: set<Path>) {
    && (forall p :: p in ps <==> p in done)
    && forall i, j :: 0 <= i < j < |ps| ==> ps[i] != ps[j]
  }

  lemma VisitedOneMore(ps: seq<Path>, done: set<Path>, p: Path)
    requires Visited(ps, done) && p !in done
    ensures Visited(ps + [p], done + {p})
  {
  }

  /** What the uploads of the owned paths in ps add to an account. */
  ghost function Booked(s: Snapshot, owner: map<Path, RelId>, chain: seq<FolderTarget>, ps: seq<Path>, a: Account): int
    requires forall p :: p in ps ==> p in owner && Key(owner[p], p) in s.base
  {
    if ps == [] then 0
    else
      var p := ps[|ps| - 1];
      var g := GrowthOf(s, Key(owner[p], p));
      Booked(s, owner, chain, ps[..|ps| - 1], a) + if g > 0 && AccountOf(chain, owner[p]) == a then g else 0
  }

  /** From books b0 to books b, exactly the growth of the paths in ps was added. */
  ghost predicate BookedAll(s: Snapshot, owner: map<Path, RelId>, chain: seq<FolderTarget>, ps: seq<Path>, b0: Books, b: Books) {
    && (forall p :: p in ps ==> p in owner && Key(owner[p], p) in s.base)
    && b.cache == b0.cache && b.lastUsage == b0.lastUsage
    && forall a :: At0(b.pending, a) == At0(b0.pending, a) + Booked(s, owner, chain, ps, a)
  }

  lemma BookedOneMore(s: Snapshot, owner: map<Path, RelId>, chain: seq<FolderTarget>, ps: seq<Path>, p: Path, b0: Books, b: Books)
    requires BookedAll(s, owner, chain, ps, b0, b) && p in owner && Key(owner[p], p) in s.base
    ensures BookedAll(s, owner, chain, ps + [p], b0, ConsumeBooks(b, AccountOf(chain, owner[p]), GrowthOf(s, Key(owner[p], p))))
  {
    assert (ps + [p])[..|ps + [p]| - 1] == ps;
  }

  /** How far the first loop has come: the paths in done are planned and their growth is booked. */
  ghost predicate OwnedSoFar(s: Snapshot, owner: map<Path, RelId>, chain: seq<FolderTarget>, done: set<Path>, order: seq<Path>,
                             tasks: seq<Task>, smart: bool, b0: Books, b: Books) {
    && Visited(order, done)
    && PlannedSoFar(s, owner, map[], done, tasks)
    && if smart then BookedAll(s, owner, chain, order, b0, b) else b == b0
  }

  lemma OwnedOneMore(s: Snapshot, owner: map<Path, RelId>, chain: seq<FolderTarget>, done: set<Path>, order: seq<Path>,
                     tasks: seq<Task>, smart: bool, b0: Books, b: Books, p: Path, ts: seq<Task>)
    requires OwnedSoFar(s, owner, chain, done, order, tasks, smart, b0, b) && p !in done
    requires p in owner && Key(owner[p], p) in s.base && TasksOf(s, owner, map[], p, ts)
    ensures OwnedSoFar(s, owner, chain, done + {p}, order + [p], tasks + ts, smart, b0,
                       if smart then ConsumeBooks(b, AccountOf(chain, owner[p]), GrowthOf(s, Key(owner[p], p))) else b)
  {
    PlanOneMore(s, owner, map[], done, tasks, p, ts);
    VisitedOneMore(order, done, p);
    if smart { BookedOneMore(s, owner, chain, order, p, b0, b); }
  }

  /** What became of one new path: the books and the chain before and after, the accounts that were asked,
      and the relation it was routed to, if any. */
  datatype Decision = Decision(p: Path, b: Books, c: Books, chain: seq<FolderTarget>, longer: seq<FolderTarget>,
                               turns: seq<Turn>, rel: RelId)

  /** A path that a relation lists: adoption changes nothing, and an update at the twin books its growth there. */
  ghost predicate AtTwin(d: Decision, twin: Twin, adopts: bool, size: int, smart: bool) {
    && d.rel == 0 && d.longer == d.chain
    && if smart && !adopts then d.c == ConsumeBooks(d.b, AccountOf(d.chain, twin.rel), size - twin.state.size) else d.c == d.b
  }

  /** A path that nobody lists goes to the first account that accepted it at its turn, with that reservation,
      or is deferred when all refused; without space management it goes to the primary. */
  ghost predicate ByFirstFit(d: Decision, size: int, desk: Desk, smart: bool)
    requires d.chain != [] && desk.t.den > 0
  {
    if !smart then d.rel == d.chain[0].id && d.longer == d.chain && d.c == d.b
    else
      && InTurn(d.turns, |d.chain|, d.b, desk, size)
      && if d.rel == 0 then |d.turns| == |d.longer| && RefusedBy(d.turns, d.longer, |d.longer|, desk, size)
         else AcceptedBy(d.turns, d.longer, d.rel, desk, size) && d.c == Leaves(d.turns[|d.turns| - 1], desk, size)
  }

  predicate Adopts(s: Snapshot, p: Path, twin: Twin)
    requires p in s.local
  {
    p !in s.unreadable && twin.state.md5 == Md5(s.local[p].bytes)
  }

  ghost predicate Decided(s: Snapshot, d: Decision, desk: Desk, smart: bool) {
    && d.p in s.local && d.chain != [] && desk.t.den > 0
    && var twin := FindTwin(s.chain, s.listing, d.p);
       if twin.Some? then AtTwin(d, twin.value, Adopts(s, d.p, twin.value), |s.local[d.p].bytes|, smart)
       else ByFirstFit(d, |s.local[d.p].bytes|, desk, smart)
  }

  /** The decisions about the paths in done, each path once, and each from the books and the chain that the one
      before it left. */
  ghost predicate Logged(s: Snapshot, log: seq<Decision>, done: set<Path>, route: map<Path, RelId>, b: Books, c: Books,
                         chain: seq<FolderTarget>, longer: seq<FolderTarget>, desk: Desk, smart: bool) {
    && Visited(PathsOf(log), done)
    && (forall i :: 0 <= i < |log| ==> InLog(s, log, i, route, b, chain, desk, smart))
    && c == BooksAfter(log, |log|, b) && longer == ChainAfter(log, |log|, chain)
  }

  function PathsOf(log: seq<Decision>): (ps: seq<Path>)
    ensures |ps| == |log| && forall i :: 0 <= i < |log| ==> ps[i] == log[i].p
  {
    seq(|log|, i requires 0 <= i < |log| => log[i].p)
  }

  function BooksAfter(log: seq<Decision>, n: nat, b: Books): Books
    requires n <= |log|
  {
    if n == 0 then b else log[n - 1].c
  }

  function ChainAfter(log: seq<Decision>, n: nat, chain: seq<FolderTarget>): seq<FolderTarget>
    requires n <= |log|
  {
    if n == 0 then chain else log[n - 1].longer
  }

  ghost predicate InLog(s: Snapshot, log: seq<Decision>, i: nat, route: map<Path, RelId>, b: Books,
                        chain: seq<FolderTarget>, desk: Desk, smart: bool)
    requires i < |log|
  {
    && Decided(s, log[i], desk, smart)
    && log[i].b == BooksAfter(log, i, b) && log[i].chain == ChainAfter(log, i, chain)
    && if log[i].rel == 0 then log[i].p !in route else log[i].p in route && route[log[i].p] == log[i].rel
  }

  lemma LoggedNone(s: Snapshot, b: Books, chain: seq<FolderTarget>, desk: Desk, smart: bool)
    ensures Logged(s, [], {}, map[], b, b, chain, chain, desk, smart)
  {
  }

  lemma LoggedOneMore(s: Snapshot, log: seq<Decision>, done: set<Path>, route: map<Path, RelId>, b: Books, c: Books,
                      chain: seq<FolderTarget>, longer: seq<FolderTarget>, desk: Desk, smart: bool, d: Decision)
    requires Logged(s, log, done, route, b, c, chain, longer, desk, smart) && Decided(s, d, desk, smart)
    requires d.b == c && d.chain == longer && d.p !in done && d.p !in route
    ensures Logged(s, log + [d], done + {d.p}, if d.rel == 0 then route else route[d.p := d.rel], b, d.c, chain, d.longer, desk, smart)
  {
    var more, route' := log + [d], if d.rel == 0 then route else route[d.p := d.rel];
    VisitedOneMore(PathsOf(log), done, d.p);
    assert PathsOf(more) == PathsOf(log) + [d.p];
    forall i | 0 <= i < |more| ensures InLog(s, more, i, route', b, chain, desk, smart) {
      if i < |log| {
        assert PathsOf(log)[i] in PathsOf(log);
        InLogStays(s, log, i, route, b, chain, desk, smart, d);
      }
    }
  }

  lemma InLogStays(s: Snapshot, log: seq<Decision>, i: nat, route: map<Path, RelId>, b: Books,
                   chain: seq<FolderTarget>, desk: Desk, smart: bool, d: Decision)
    requires i < |log| && InLog(s, log, i, route, b, chain, desk, smart) && log[i].p != d.p
    ensures InLog(s, log + [d], i, if d.rel == 0 then route else route[d.p := d.rel], b, chain, desk, smart)
  {
    assert (log + [d])[i] == log[i];
    if i > 0 { assert (log + [d])[i - 1] == log[i - 1]; }
  }

  ghost predicate HalfwayLogged(s: Snapshot, owner: map<Path, RelId>, route: map<Path, RelId>, done: set<Path>, tasks: seq<Task>,
                                log: seq<Decision>, chain0: seq<FolderTarget>, chain: seq<FolderTarget>,
                                targets0: seq<TargetInfo>, targets: seq<TargetInfo>, b0: Books, b: Books, desk: Desk, smart: bool) {
    && Halfway(s, owner, route, done, tasks, chain0, chain, targets0, targets)
    && Logged(s, log, done, route, b0, b, chain0, chain, desk, smart)
  }

  lemma HalfwayLoggedOneMore(s: Snapshot, owner: map<Path, RelId>, route: map<Path, RelId>, done: set<Path>, tasks: seq<Task>,
                             log: seq<Decision>, ts: seq<Task>, d: Decision, chain0: seq<FolderTarget>,
                             targets0: seq<TargetInfo>, targets1: seq<TargetInfo>, targets2: seq<TargetInfo>,
                             b0: Books, desk: Desk, smart: bool)
    requires HalfwayLogged(s, owner, route, done, tasks, log, chain0, d.chain, targets0, targets1, b0, d.b, desk, smart)
    requires chain0 != [] && d.p !in owner && d.p !in done && Decided(s, d, desk, smart)
    requires Extended(d.chain, d.longer, targets1, targets2) && (d.rel != 0 ==> InChain(d.longer, d.rel))
    requires TasksOf(s, owner, if d.rel == 0 then route else route[d.p := d.rel], d.p, ts)
    ensures HalfwayLogged(s, owner, if d.rel == 0 then route else route[d.p := d.rel], done + {d.p}, tasks + ts, log + [d],
                          chain0, d.longer, targets0, targets2, b0, d.c, desk, smart)
  {
    HalfwayOneMore(s, owner, route, done, tasks, d.p, ts, d.rel, chain0, d.chain, d.longer, targets0, targets1, targets2);
    LoggedOneMore(s, log, done, route, b0, d.b, chain0, d.chain, desk, smart, d);
  }

  class Builder {
    const s: Snapshot
    const router: Router

    constructor (s: Snapshot, r: Router)
      ensures this.s == s && router == r
    {
      this.s, router := s, r;
    }

    /** The router works on the snapshot's chain, possibly grown by new relations. */
    ghost predicate Ready()
      reads this, router, router.space, router.store
    {
      && router.Valid()
      && GrownFrom(s.chain, router.chain) && Stored(s.chain, router.store.targets)
      && (forall k :: k in s.listing ==> InChain(s.chain, k.rel))
      && (forall k :: DistinctIds(ListedAt(s.listing, k)))
    }

    method OwnerByPath() returns (owner: map<Path, RelId>)
      ensures OwnerMap(s.base, owner)
    {
      owner := map[];
      var todo := s.base.Keys;
      while todo != {}
        invariant todo <= s.base.Keys
        invariant forall p :: p in owner ==> Key(owner[p], p) in s.base
        invariant forall k :: k in s.base && k !in todo ==> k.path in owner
        decreases todo
      {
        var k :| k in todo;
        owner := owner[k.path := k.rel];
        todo := todo - {k};
      }
    }

    /** Bytes an upload adds to a relation's account without being gated. */
    method Consume(rel: RelId, size: int)
      requires Ready()
      modifies router.space`pending
      ensures Ready()
      ensures router.space.Current() ==
              if router.smart then ConsumeBooks(old(router.space.Current()), AccountOf(router.chain, rel), size)
              else old(router.space.Current())
      ensures router.Quiet() ==> Tighter(old(router.space.Current()), router.space.Current(), router.Span())
    {
      if router.Quiet() { SameIsTighter(router.space.Current(), router.Span()); }
      if !router.smart { return; }
      var i := 0;
      while i < |router.chain| && router.chain[i].id != rel
        invariant 0 <= i <= |router.chain| && AccountOf(router.chain, rel) == AccountOf(router.chain[i..], rel)
      {
        assert router.chain[i..][1..] == router.chain[i + 1..];
        i := i + 1;
      }
      var a := if i < |router.chain| then router.chain[i].account else "";
      if router.Quiet() {
        ghost var b := router.space.Current();
        ConsumeKeeps(b, router.Span(), a, size);
        if router.provisionExhausted && router.lowOnly {
          TighterIsAsLow(b, ConsumeBooks(b, a, size), router.Span(), router.space.accounts, router.space.threshold, router.inChain);
        }
      }
      router.space.Consume(a, size);
    }

    /** The first loop: every owned path stays with its owner. order is the order in which the map
        iteration of the source happens to visit them. */
    method PlanOwned(owner: map<Path, RelId>) returns (tasks: seq<Task>, ghost order: seq<Path>)
      requires Ready() && OwnerMap(s.base, owner)
      modifies router.space`pending
      ensures Ready()
      ensures PlannedSoFar(s, owner, map[], owner.Keys, tasks)
      // Every owned path is visited once, and its growth is booked on its account once.
      ensures Visited(order, owner.Keys)
      ensures router.smart ==> BookedAll(s, owner, router.chain, order, old(router.space.Current()), router.space.Current())
      ensures !router.smart ==> router.space.Current() == old(router.space.Current())
    {
      tasks, order := [], [];
      ghost var b0 := router.space.Current();
      var todo := owner.Keys;
      ghost var done: set<Path> := {};
      while todo != {}
        invariant Ready() && todo + done == owner.Keys && todo !! done
        invariant OwnedSoFar(s, owner, router.chain, done, order, tasks, router.smart, b0, router.space.Current())
        decreases todo
      {
        var p :| p in todo;
        var ts, growth := PlanOwnedPath(s, owner, map[], Key(owner[p], p));
        OwnedOneMore(s, owner, router.chain, done, order, tasks, router.smart, b0, router.space.Current(), p, ts);
        if growth > 0 { Consume(owner[p], growth); }
        tasks, todo, order, done := tasks + ts, todo - {p}, order + [p], done + {p};
      }
      assert done == owner.Keys;
    }

    /** Of an update in place at the twin only the growth counts as space; adoption takes none. */
    method ConsumeTwin(p: Path, twin: Twin, action: Action)
      requires Ready() && p in s.local
      modifies router.space`pending
      ensures Ready()
      ensures !router.smart || action == Adopt ==> router.space.Current() == old(router.space.Current())
      ensures router.smart && action != Adopt ==>
                router.space.Current() == ConsumeBooks(old(router.space.Current()), AccountOf(router.chain, twin.rel),
                                                       |s.local[p].bytes| - twin.state.size)
      ensures router.Quiet() ==> Tighter(old(router.space.Current()), router.space.Current(), router.Span())
    {
      if router.Quiet() { SameIsTighter(router.space.Current(), router.Span()); }
      var ls := Stat(s.local[p]);
      if action != Adopt { Consume(twin.rel, if ls.size > twin.state.size then ls.size - twin.state.size else 0); }
    }

    /** A brand-new file whose path a relation of the chain lists: adopted when the content is
        identical, otherwise updated in place. */
    method PlanTwin(p: Path, twin: Twin, ghost owner: map<Path, RelId>, ghost route: map<Path, RelId>)
      returns (ts: seq<Task>)
      requires Ready() && p in s.local && p !in owner && FindTwin(s.chain, s.listing, p) == Some(twin)
      modifies router.space`pending
      ensures Ready() && TasksOf(s, owner, route, p, ts) && |ts| == 1
      ensures !router.smart || ts[0].action == Adopt ==> router.space.Current() == old(router.space.Current())
      ensures router.smart && ts[0].action != Adopt ==>
                router.space.Current() == ConsumeBooks(old(router.space.Current()), AccountOf(router.chain, twin.rel),
                                                       |s.local[p].bytes| - twin.state.size)
      ensures AtTwin(Decision(p, old(router.space.Current()), router.space.Current(), router.chain, router.chain, [], 0),
                     twin, ts[0].action == Adopt, |s.local[p].bytes|, router.smart)
      ensures ts[0].action == Adopt <==> Adopts(s, p, twin)
      ensures router.Quiet() ==> Tighter(old(router.space.Current()), router.space.Current(), router.Span())
    {
      TwinGroup(s, owner, route, p, twin);
      var action := if p !in s.unreadable && twin.state.md5 == Md5(s.local[p].bytes) then Adopt else Upload;
      ts := [Task(Key(twin.rel, p), action, Some(Stat(s.local[p])), Some(twin.state))];
      ConsumeTwin(p, twin, action);
    }

    /** A brand-new file no relation of the chain lists: routed by first fit, or deferred. */
    method PlanRouted(p: Path, ghost owner: map<Path, RelId>, ghost route: map<Path, RelId>)
      returns (ts: seq<Task>, rel: RelId, ghost turns: seq<Turn>)
      requires Ready() && p in s.local && p !in owner && p !in route && FindTwin(s.chain, s.listing, p) == None
      modifies router`chain, router`inChain, router`provisionExhausted, router`lowOnly, router.store`targets
      modifies router.space`clock, router.space`cache, router.space`pending, router.space`lastUsage
      ensures Ready()
      ensures Extended(old(router.chain), router.chain, old(router.store.targets), router.store.targets)
      ensures rel != 0 ==> InChain(router.chain, rel)
      ensures TasksOf(s, owner, if rel == 0 then route else route[p := rel], p, ts)
      ensures old(router.space.clock) <= router.space.clock
      ensures router.smart ==>
                && InTurn(turns, |old(router.chain)|, old(router.space.Current()), router.Asked(), |s.local[p].bytes|)
                && router.Outcome(old(router.space.Current()), turns, rel, |s.local[p].bytes|)
      ensures !router.smart ==> rel == old(router.chain)[0].id && router.chain == old(router.chain)
                                && router.space.Current() == old(router.space.Current())
      ensures ByFirstFit(Decision(p, old(router.space.Current()), router.space.Current(), old(router.chain), router.chain, turns, rel),
                         |s.local[p].bytes|, router.Asked(), router.smart)
      ensures router.Complete() && s.local[p].bytes != [] ==>
                (rel == 0 <==> router.NobodyCanTake(old(router.space.Current()), |s.local[p].bytes|))
      ensures router.Quiet() ==> Tighter(old(router.space.Current()), router.space.Current(), router.Span())
    {
      ghost var chain1, targets1, b := router.chain, router.store.targets, router.space.Current();
      var ls := Stat(s.local[p]);
      rel, turns := router.AssignRelID(ls.size);
      StillGrown(s.chain, chain1, router.chain, targets1, router.store.targets);
      ts := RoutedTasks(p, rel, owner, route);
      if router.smart { FitIsByFirstFit(Decision(p, b, router.space.Current(), chain1, router.chain, turns, rel), ls.size); }
    }

    lemma FitIsByFirstFit(d: Decision, size: nat)
      requires router.smart && router.space.threshold.den > 0 && d.chain != []
      requires d.longer == router.chain && d.c == router.space.Current()
      requires InTurn(d.turns, |d.chain|, d.b, router.Asked(), size) && router.Outcome(d.b, d.turns, d.rel, size)
      ensures ByFirstFit(d, size, router.Asked(), true)
    {
    }

    /** No task for a deferred file, and otherwise its upload to the relation it was routed to. */
    method RoutedTasks(p: Path, rel: RelId, ghost owner: map<Path, RelId>, ghost route: map<Path, RelId>) returns (ts: seq<Task>)
      requires p in s.local && p !in owner && p !in route && FindTwin(s.chain, s.listing, p) == None
      ensures TasksOf(s, owner, if rel == 0 then route else route[p := rel], p, ts)
    {
      NewGroup(s, owner, if rel == 0 then route else route[p := rel], p);
      if rel == 0 { return []; }
      var rs, _ := PickRemote(ListedAt(s.listing, Key(rel, p)), None);
      ts := [Task(Key(rel, p), Upload, Some(Stat(s.local[p])), rs)];
    }

    /** One brand-new file: dealt with where its path is listed already, or else routed, or
        deferred. */
    method PlanNewPath(p: Path, ghost owner: map<Path, RelId>, ghost route: map<Path, RelId>)
      returns (ts: seq<Task>, rel: RelId, ghost turns: seq<Turn>)
      requires Ready() && p in s.local && p !in owner && p !in route
      modifies router`chain, router`inChain, router`provisionExhausted, router`lowOnly, router.store`targets
      modifies router.space`clock, router.space`cache, router.space`pending, router.space`lastUsage
      ensures Ready()
      ensures Extended(old(router.chain), router.chain, old(router.store.targets), router.store.targets)
      ensures rel != 0 ==> InChain(router.chain, rel)
      ensures TasksOf(s, owner, if rel == 0 then route else route[p := rel], p, ts)
      ensures old(router.space.clock) <= router.space.clock
      ensures Decided(s, Decision(p, old(router.space.Current()), router.space.Current(), old(router.chain), router.chain, turns, rel),
                      router.Asked(), router.smart)
      ensures router.Complete() && s.local[p].bytes != [] && FindTwin(s.chain, s.listing, p) == None ==>
                (rel == 0 <==> router.NobodyCanTake(old(router.space.Current()), |s.local[p].bytes|))
      ensures router.Quiet() ==> Tighter(old(router.space.Current()), router.space.Current(), router.Span())
    {
      GrownListsNothing(s, router.chain, p);
      var twin := FindRemoteTwin(router.chain, s.chain, s.listing, p);
      if twin.Some? {
        rel, turns := 0, [];
        ts := PlanTwin(p, twin.value, owner, route);
      } else {
        ts, rel, turns := PlanRouted(p, owner, route);
      }
    }

    /** The second loop's body. */
    method PlanNext(p: Path, ghost owner: map<Path, RelId>, route0: map<Path, RelId>, tasks0: seq<Task>, ghost done: set<Path>,
                    ghost log0: seq<Decision>, ghost chain0: seq<FolderTarget>, ghost targets0: seq<TargetInfo>, ghost b0: Books)
      returns (tasks: seq<Task>, route: map<Path, RelId>, ghost log: seq<Decision>)
      requires Ready() && p in s.local && p !in owner && p !in done && chain0 != []
      requires HalfwayLogged(s, owner, route0, done, tasks0, log0, chain0, router.chain, targets0, router.store.targets,
                             b0, router.space.Current(), router.Asked(), router.smart)
      requires router.Complete() ==> NoRoomForUnplaced(s, done, route0, router.space.Current(),
                                                       router.space.accounts, router.Span(), router.space.threshold)
      modifies router`chain, router`inChain, router`provisionExhausted, router`lowOnly, router.store`targets
      modifies router.space`clock, router.space`cache, router.space`pending, router.space`lastUsage
      ensures Ready()
      ensures HalfwayLogged(s, owner, route, done + {p}, tasks, log, chain0, router.chain, targets0, router.store.targets,
                            b0, router.space.Current(), router.Asked(), router.smart)
      ensures router.Complete() ==> NoRoomForUnplaced(s, done + {p}, route, router.space.Current(),
                                                      router.space.accounts, router.Span(), router.space.threshold)
    {
      ghost var chain1, targets1, b := router.chain, router.store.targets, router.space.Current();
      var ts, rel;
      ghost var turns;
      ts, rel, turns := PlanNewPath(p, owner, route0);
      ghost var d := Decision(p, b, router.space.Current(), chain1, router.chain, turns, rel);
      HalfwayLoggedOneMore(s, owner, route0, done, tasks0, log0, ts, d, chain0, targets0, targets1, router.store.targets,
                           b0, router.Asked(), router.smart);
      tasks, route, log := tasks0 + ts, if rel == 0 then route0 else route0[p := rel], log0 + [d];
      if router.Complete() {
        UnplacedOneMore(s, done, route0, route, b, router.space.Current(),
                        router.space.accounts, router.Span(), router.space.threshold, p, rel);
      }
    }

    /** The second loop: the new paths, in any order. */
    method PlanNew(owner: map<Path, RelId>, owned: seq<Task>)
      returns (tasks: seq<Task>, route: map<Path, RelId>, ghost log: seq<Decision>)
      requires Ready() && PlannedSoFar(s, owner, map[], owner.Keys, owned)
      modifies router`chain, router`inChain, router`provisionExhausted, router`lowOnly, router.store`targets
      modifies router.space`clock, router.space`cache, router.space`pending, router.space`lastUsage
      ensures Ready()
      ensures Halfway(s, owner, route, s.local.Keys - owner.Keys, tasks,
                      old(router.chain), router.chain, old(router.store.targets), router.store.targets)
      // Every new path was decided once, one after the other, from the books before to the books after.
      ensures Logged(s, log, s.local.Keys - owner.Keys, route, old(router.space.Current()), router.space.Current(),
                     old(router.chain), router.chain, router.Asked(), router.smart)
      ensures router.Complete() ==> NoRoomForUnplaced(s, s.local.Keys - owner.Keys, route, router.space.Current(),
                                                      router.space.accounts, router.Span(), router.space.threshold)
    {
      ghost var chain0, targets0, b0, desk := router.chain, router.store.targets, router.space.Current(), router.Asked();
      tasks, route, log := owned, map[], [];
      var todo := s.local.Keys - owner.Keys;
      ghost var done: set<Path> := {};
      HalfwayNone(s, owner, owned, chain0, targets0);
      LoggedNone(s, b0, chain0, desk, router.smart);
      assert chain0 != [];
      while todo != {}
        invariant Ready() && todo + done == s.local.Keys - owner.Keys && todo !! done
        invariant router.Asked() == desk
        invariant HalfwayLogged(s, owner, route, done, tasks, log, chain0, router.chain, targets0, router.store.targets,
                                b0, router.space.Current(), desk, router.smart)
        invariant router.Complete() ==> NoRoomForUnplaced(s, done, route, router.space.Current(),
                                                          router.space.accounts, router.Span(), router.space.threshold)
        decreases todo
      {
        var p :| p in todo;
        tasks, route, log := PlanNext(p, owner, route, tasks, done, log, chain0, targets0, b0);
        todo, done := todo - {p}, done + {p};
      }
      assert done == s.local.Keys - owner.Keys;
    }

    /** buildChainTasks: the plan of one pass, and the possibly extended chain in the router. */
    method BuildChainTasks()
      returns (tasks: seq<Task>, owner: map<Path, RelId>, route: map<Path, RelId>,
               ghost order: seq<Path>, ghost between: Books, ghost log: seq<Decision>)
      requires Ready()
      modifies router`chain, router`inChain, router`provisionExhausted, router`lowOnly, router.store`targets
      modifies router.space`clock, router.space`cache, router.space`pending, router.space`lastUsage
      ensures Ready()
      ensures Extended(old(router.chain), router.chain, old(router.store.targets), router.store.targets)
      ensures forall p :: p in route ==> InChain(router.chain, route[p])
      ensures IsPlan(s, owner, route, tasks)
      // The growth of the owned paths is booked first, and then every new path is decided, once and in turn.
      ensures Visited(order, owner.Keys)
      ensures if router.smart then BookedAll(s, owner, old(router.chain), order, old(router.space.Current()), between)
              else between == old(router.space.Current())
      ensures Logged(s, log, s.local.Keys - owner.Keys, route, between, router.space.Current(),
                     old(router.chain), router.chain, router.Asked(), router.smart)
      // Complete: by the end of planning, no authenticated account has room for a deferred file.
      ensures router.Complete() ==>
                forall p :: Deferred(s, owner, route, p) && s.local[p].bytes != [] ==>
                  NoRoomFor(s, p, router.space.Current(), router.space.accounts, router.Span(), router.space.threshold)
    {
      owner := OwnerByPath();
      tasks, order := PlanOwned(owner);
      between := router.space.Current();
      tasks, route, log := PlanNew(owner, tasks);
      PlannedAll(s, owner, route, tasks);
      assert forall p :: Deferred(s, owner, route, p) && s.local[p].bytes != [] ==>
                           p in s.local.Keys - owner.Keys && Unplaced(s, route, p);
    }
  }
}
