/** The second run invariant, on which change detection rests: a live row's hash is the hash of
    the local content that had the row's size and second-truncated mtime, unless the row was
    written when it did not describe the local file. It holds over every life whose local edits
    leave a new stamp. */
module Stamps {
  import opened SyncTypes
  import opened PlanSpec
  import opened PassMachine
  import opened PlanSound
  import opened Runs

  datatype Stamp = Stamp(path: Path, seconds: int, size: int)

  /** A daemon with the history of which content ever bore which stamp. stale are the keys whose
      row, when it was last written, did not describe the local file: an edit fell between the
      reading of the file and its stat, or a restore brought back content the row has no hash of. */
  datatype Daemon = Daemon(w: World, stamps: map<Stamp, Bytes>, stale: set<Key>)

  function FileStamp(p: Path, f: LocalFile): Stamp { Stamp(p, Seconds(f.mtime), |f.bytes|) }

  function RowStamp(k: Key, m: FileMeta): Stamp { Stamp(k.path, Seconds(m.localMtime), m.localSize) }

  /** Edits give new content a stamp that other content of the path never had. */
  ghost predicate Careful(d: Daemon, e: Event) {
    e.Edit? && FileStamp(e.path, e.file) in d.stamps ==> d.stamps[FileStamp(e.path, e.file)] == e.file.bytes
  }

  /** The row has the stamp and the hash of the local file. */
  predicate Describes(local: LocalTree, rows: Rows, k: Key) {
    && k in rows && k.path in local
    && RowStamp(k, rows[k]) == FileStamp(k.path, local[k.path])
    && rows[k].remoteMd5 == Md5(local[k.path].bytes)
  }

  /** The row whose stamp an event writes. */
  predicate Restamps(w: World, e: Event, k: Key) {
    match e
    case Work(Write(i, _)) => i < |w.tasks| && WritesRow(w.tasks[i]) && w.tasks[i].action != Trash && k == w.tasks[i].key
    case ReOwn(l, _, _) => k == l
    case _ => false
  }

  ghost function Next(d: Daemon, hold: map<RelId, int>, e: Event): Daemon
    requires Possible(d.w, hold, e)
  {
    var w := After(d.w, hold, e);
    Daemon(w,
           if e.Edit? then d.stamps[FileStamp(e.path, e.file) := e.file.bytes] else d.stamps,
           set k | k in d.stale + w.rows.Keys && if Restamps(d.w, e, k) then !Describes(w.local, w.rows, k) else k in d.stale)
  }

  ghost predicate LocalStamped(d: Daemon, p: Path) {
    p in d.w.local ==>
      var s := FileStamp(p, d.w.local[p]);
      s in d.stamps && d.stamps[s] == d.w.local[p].bytes
  }

  ghost predicate RowStamped(d: Daemon, k: Key) {
    Live(d.w.rows, k) && k !in d.stale ==>
      var s := RowStamp(k, d.w.rows[k]);
      s in d.stamps && d.w.rows[k].remoteMd5 == Md5(d.stamps[s])
  }

  ghost predicate Stamped(d: Daemon) {
    && Inv(d.w)
    && (forall p :: LocalStamped(d, p))
    && (forall k :: RowStamped(d, k))
  }

  /** An event writes no live row's stamp, hash or status but that of the row it restamps. */
  lemma OtherRowsStay(w: World, hold: map<RelId, int>, e: Event, k: Key)
    requires Possible(w, hold, e) && !Restamps(w, e, k) && Live(After(w, hold, e).rows, k)
    ensures Live(w.rows, k) && After(w, hold, e).rows[k] == w.rows[k]
  {
    if e.Work? && e.step.Write? {
      assert WritesRow(w.tasks[e.step.i]) ==> RowsAfter(w, e.step.i, e.step.at)[w.tasks[e.step.i].key] == RowAfter(
        w.local, w.rows, w.tasks[e.step.i], w.phase[e.step.i].rf, e.step.at);
    }
  }

  lemma NextStamped(d: Daemon, hold: map<RelId, int>, e: Event)
    requires Stamped(d) && Possible(d.w, hold, e) && Careful(d, e)
    ensures Stamped(Next(d, hold, e))
  {
    EventKeeps(d.w, hold, e);
    var v := Next(d, hold, e);
    forall p ensures LocalStamped(v, p) { assert LocalStamped(d, p); }
    forall k ensures RowStamped(v, k) {
      assert LocalStamped(v, k.path);
      if Live(v.w.rows, k) && !Restamps(d.w, e, k) {
        OtherRowsStay(d.w, hold, e, k);
        assert RowStamped(d, k);
      }
    }
  }

  // ---- whole lives ----

  ghost predicate CarefulLife(d: Daemon, hold: map<RelId, int>, events: seq<Event>)
    decreases |events|
  {
    events == [] ||
    (Possible(d.w, hold, events[0]) && Careful(d, events[0]) && CarefulLife(Next(d, hold, events[0]), hold, events[1..]))
  }

  ghost function Later(d: Daemon, hold: map<RelId, int>, events: seq<Event>): Daemon
    requires CarefulLife(d, hold, events)
    decreases |events|
  {
    if events == [] then d else Later(Next(d, hold, events[0]), hold, events[1..])
  }

  lemma LifeStamped(d: Daemon, hold: map<RelId, int>, events: seq<Event>)
    requires Stamped(d) && CarefulLife(d, hold, events)
    ensures Stamped(Later(d, hold, events))
    decreases |events|
  {
    if events != [] {
      NextStamped(d, hold, events[0]);
      LifeStamped(Next(d, hold, events[0]), hold, events[1..]);
    }
  }

  lemma {:induction false} LifeJoins(d: Daemon, hold: map<RelId, int>, a: seq<Event>, b: seq<Event>)
    requires CarefulLife(d, hold, a) && CarefulLife(Later(d, hold, a), hold, b)
    ensures CarefulLife(d, hold, a + b) && Later(d, hold, a + b) == Later(Later(d, hold, a), hold, b)
    decreases |a|
  {
    if a == [] {
      assert a + b == b;
    } else {
      var rest := a[1..];
      assert a + b == [a[0]] + (rest + b) && a == [a[0]] + rest;
      LifeSteps(d, hold, a[0], rest);
      LifeJoins(Next(d, hold, a[0]), hold, rest, b);
      LifeSteps(d, hold, a[0], rest + b);
    }
  }

  lemma LifeSteps(d: Daemon, hold: map<RelId, int>, e: Event, rest: seq<Event>)
    ensures CarefulLife(d, hold, [e] + rest) <==>
            Possible(d.w, hold, e) && Careful(d, e) && CarefulLife(Next(d, hold, e), hold, rest)
    ensures CarefulLife(d, hold, [e] + rest) ==> Later(d, hold, [e] + rest) == Later(Next(d, hold, e), hold, rest)
  {
    assert ([e] + rest)[0] == e && ([e] + rest)[1..] == rest;
  }

  /** A local file that still has a live row's stamp. */
  predicate SameStamp(local: LocalTree, rows: Rows, k: Key) {
    && Live(rows, k) && k.path in local
    && |local[k.path].bytes| == rows[k].localSize
    && Seconds(local[k.path].mtime) == Seconds(rows[k].localMtime)
  }

  /** The merge of an owned path sees a local file with the row's stamp and the row's object with
      the row's hash, although the file's content is another. */
  predicate Blind(w: World, k: Key) {
    && SameStamp(w.local, w.rows, k)
    && var m := w.rows[k];
       && m.remoteMd5 != Md5(w.local[k.path].bytes)
       && m.remoteId in w.drive.objs && w.drive.objs[m.remoteId].place == At(k)
       && DigestOf(w.drive.objs[m.remoteId].content) == m.remoteMd5
  }

  /** The invariant leaves that to stale rows. */
  lemma BlindIsStale(d: Daemon, k: Key)
    requires Stamped(d) && Blind(d.w, k)
    ensures k in d.stale
  {
    assert RowStamped(d, k) && LocalStamped(d, k.path);
  }
}
