/** Single ownership over the daemon's whole life, for one chain of relations. */
module OwnerLives {
  import opened SyncTypes
  import opened PlanSpec
  import opened PassMachine
  import opened PlanSound
  import opened Runs
  import opened Ownership

  /** A pass of this chain starts from all its relations that own anything and routes within the
      chain; a pass of another chain stays out of it. */
  ghost predicate InFamily(chain: seq<FolderTarget>, rows: Rows, s: Snapshot, route: map<Path, RelId>) {
    if exists k: Key :: InChain(s.chain, k.rel) && InChain(chain, k.rel) then
      && (forall k :: OwnsIn(chain, rows, k) ==> InChain(s.chain, k.rel))
    else forall p :: p in route ==> !InChain(chain, route[p])
  }

  /** A restore does not bring back a path that another relation of the chain owns by now. */
  ghost predicate Orderly(chain: seq<FolderTarget>, w: World, e: Event) {
    match e
    case Begin(s, _, route, _) => InFamily(chain, w.rows, s, route)
    case ReOwn(k, _, _) => InChain(chain, k.rel) ==> forall l :: OwnsIn(chain, w.rows, l) ==> l.path != k.path
    case _ => true
  }

  /** A task that will still write a live row of the chain. */
  predicate WillOwn(chain: seq<FolderTarget>, w: World, i: int) {
    && 0 <= i < |w.tasks| && i < |w.phase| && WritesRow(w.tasks[i]) && w.tasks[i].action != Trash
    && !w.phase[i].Done? && InChain(chain, w.tasks[i].key.rel)
  }

  ghost predicate NoRival(chain: seq<FolderTarget>, w: World, i: int, l: Key) {
    WillOwn(chain, w, i) && OwnsIn(chain, w.rows, l) && l.path == w.tasks[i].key.path ==> l == w.tasks[i].key
  }

  ghost predicate NoRivals(chain: seq<FolderTarget>, w: World, i: int, j: int) {
    WillOwn(chain, w, i) && WillOwn(chain, w, j) && i != j ==> w.tasks[i].key.path != w.tasks[j].key.path
  }

  /** One live owner per path, counting the owners that running tasks will make. */
  ghost predicate Owned(chain: seq<FolderTarget>, w: World) {
    && Inv(w) && SingleOwners(chain, w.rows)
    && (forall i, l :: NoRival(chain, w, i, l))
    && (forall i, j :: NoRivals(chain, w, i, j))
  }

  lemma BeginKeepsOwned(chain: seq<FolderTarget>, w: World, hold: map<RelId, int>, e: Event)
    requires Owned(chain, w) && e.Begin? && Possible(w, hold, e) && Orderly(chain, w, e)
    ensures Owned(chain, After(w, hold, e))
  {
    EventKeeps(w, hold, e);
    var v := After(w, hold, e);
    forall i, l ensures NoRival(chain, v, i, l) {
      if WillOwn(chain, v, i) && OwnsIn(chain, v.rows, l) && l.path == v.tasks[i].key.path {
        NewTaskHasNoRival(chain, v, e.s, e.owner, e.route, i, l);
      }
    }
    forall i, j ensures NoRivals(chain, v, i, j) {
      if WillOwn(chain, v, i) && WillOwn(chain, v, j) && i != j {
        RowWritersDiffer(v, e.s, e.owner, e.route, if i < j then i else j, if i < j then j else i);
      }
    }
  }

  lemma NewTaskHasNoRival(chain: seq<FolderTarget>, v: World, s: Snapshot, owner: map<Path, RelId>, route: map<Path, RelId>,
                          i: int, l: Key)
    requires Planning(v, s, owner, route) && InFamily(chain, v.rows, s, route) && SingleOwners(chain, v.rows)
    requires WillOwn(chain, v, i) && OwnsIn(chain, v.rows, l) && l.path == v.tasks[i].key.path
    ensures l == v.tasks[i].key
  {
    var t := v.tasks[i];
    assert Planned(s, owner, route, t);
    assert InChain(s.chain, t.key.rel) && InChain(chain, t.key.rel);
    assert l in s.base && l.path in owner;
    assert OwnsIn(chain, v.rows, t.key);
  }

  lemma StepKeepsOwned(chain: seq<FolderTarget>, w: World, step: Step)
    requires Owned(chain, w) && Enabled(w, step)
    ensures Owned(chain, Apply(w, step))
  {
    EventKeeps(w, map[], Work(step));
    var v, n := Apply(w, step), step.i;
    assert WillOwn(chain, w, n) || v.rows == w.rows || w.tasks[n].action == Trash || !InChain(chain, w.tasks[n].key.rel);
    forall k ensures OwnsIn(chain, v.rows, k) ==> OwnsIn(chain, w.rows, k) || (WillOwn(chain, w, n) && k == w.tasks[n].key) {}
    forall k, l | OwnsIn(chain, v.rows, k) && OwnsIn(chain, v.rows, l) && k.path == l.path ensures k == l {
      assert NoRival(chain, w, n, k) && NoRival(chain, w, n, l);
    }
    forall i, l ensures NoRival(chain, v, i, l) {
      assert NoRival(chain, w, i, l) && NoRivals(chain, w, i, n);
    }
    forall i, j ensures NoRivals(chain, v, i, j) { assert NoRivals(chain, w, i, j); }
  }

  lemma ReOwnKeepsOwned(chain: seq<FolderTarget>, w: World, hold: map<RelId, int>, e: Event)
    requires Owned(chain, w) && e.ReOwn? && Possible(w, hold, e) && Orderly(chain, w, e)
    ensures Owned(chain, After(w, hold, e))
  {
    EventKeeps(w, hold, e);
    var v := After(w, hold, e);
    forall l ensures OwnsIn(chain, v.rows, l) ==> OwnsIn(chain, w.rows, l) || (l == e.key && InChain(chain, l.rel)) {}
  }

  lemma OtherKeepsOwned(chain: seq<FolderTarget>, w: World, hold: map<RelId, int>, e: Event)
    requires Owned(chain, w) && !e.Begin? && !e.Work? && !e.ReOwn? && Possible(w, hold, e)
    ensures Owned(chain, After(w, hold, e))
  {
    EventKeeps(w, hold, e);
    var v := After(w, hold, e);
    forall l ensures OwnsIn(chain, v.rows, l) ==> OwnsIn(chain, w.rows, l) {}
    forall i, l ensures NoRival(chain, v, i, l) { assert NoRival(chain, w, i, l); }
    forall i, j ensures NoRivals(chain, v, i, j) { assert NoRivals(chain, w, i, j); }
  }

  lemma EventKeepsOwned(chain: seq<FolderTarget>, w: World, hold: map<RelId, int>, e: Event)
    requires Owned(chain, w) && Possible(w, hold, e) && Orderly(chain, w, e)
    ensures Owned(chain, After(w, hold, e))
  {
    match e {
      case Begin(_, _, _, _) => BeginKeepsOwned(chain, w, hold, e);
      case Work(step) => StepKeepsOwned(chain, w, step);
      case ReOwn(_, _, _) => ReOwnKeepsOwned(chain, w, hold, e);
      case _ => OtherKeepsOwned(chain, w, hold, e);
    }
  }

  ghost predicate OrderlyLife(chain: seq<FolderTarget>, w: World, hold: map<RelId, int>, events: seq<Event>)
    requires Lives(w, hold, events)
    decreases |events|
  {
    events == [] || (Orderly(chain, w, events[0]) && OrderlyLife(chain, After(w, hold, events[0]), hold, events[1..]))
  }

  lemma {:induction false} LifeKeepsOwned(chain: seq<FolderTarget>, w: World, hold: map<RelId, int>, events: seq<Event>)
    requires Owned(chain, w) && Lives(w, hold, events) && OrderlyLife(chain, w, hold, events)
    ensures Owned(chain, Life(w, hold, events))
    decreases |events|
  {
    if events != [] {
      EventKeepsOwned(chain, w, hold, events[0]);
      LifeKeepsOwned(chain, After(w, hold, events[0]), hold, events[1..]);
    }
  }

  /** From a fresh installation on, no path ever has two live owners in a chain, in mid-pass
      neither, through crashes, passes that extend the chain, restores and lost rows. */
  lemma SingleOwnersInEveryLife(chain: seq<FolderTarget>, w: World, hold: map<RelId, int>, events: seq<Event>)
    requires Installed(w) && Lives(w, hold, events) && OrderlyLife(chain, w, hold, events)
    ensures SingleOwners(chain, Life(w, hold, events).rows)
  {
    LifeKeepsOwned(chain, w, hold, events);
  }
}
