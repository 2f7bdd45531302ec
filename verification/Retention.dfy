/** core/retention: the holding tank's sweep, restore and purge. */
module Retention {
  import opened SyncTypes
  import opened PassMachine
  import opened PlanSpec
  import opened PlanSound
  import opened Runs
  import opened StateStore

  /** One account's view of Drive; several clients share the objects. */
  class Cloud {
    var drive: Drive

    constructor (d: Drive)
      ensures drive == d
    {
      drive := d;
    }

    /** Files.Delete; an object that is already gone counts as deleted. */
    method PermanentDelete(id: ObjId, down: bool) returns (ok: bool)
      modifies this`drive
      ensures ok == !down
      ensures drive == if down then old(drive) else DropObject(old(drive), id)
    {
      if down { return false; }
      drive := DropObject(drive, id);
      return true;
    }
  }

  // ---- Sweep ----

  /** What goes wrong during one sweep, entry by entry: the object could not be deleted, the
      row could not be dropped, or the sweep was cancelled before it got there. */
  datatype Faults = Faults(deletes: set<Key>, rows: set<Key>, unvisited: set<Key>)

  const NO_FAULTS := Faults({}, {}, {})

  /** TrashedBefore(now): rows of configured relations whose holding period is over. */
  function ExpiredKeys(rows: Rows, hold: map<RelId, int>, now: Time): set<Key> {
    set k | k in rows && k.rel in hold && Expired(rows[k], hold[k.rel], now)
  }

  /** Entries whose object the sweep deletes. */
  function DeletedKeys(rows: Rows, hold: map<RelId, int>, now: Time, f: Faults): set<Key> {
    ExpiredKeys(rows, hold, now) - f.unvisited - f.deletes
  }

  function IdsOf(rows: Rows, keys: set<Key>): set<ObjId> {
    set k | k in keys && k in rows :: rows[k].remoteId
  }

  function SweptRows(rows: Rows, hold: map<RelId, int>, now: Time, f: Faults): Rows {
    rows - (DeletedKeys(rows, hold, now, f) - f.rows)
  }

  function SweptDrive(drive: Drive, rows: Rows, hold: map<RelId, int>, now: Time, f: Faults): Drive {
    drive.(objs := drive.objs - IdsOf(rows, DeletedKeys(rows, hold, now, f)))
  }

  /** The stores after the entries in gone were deleted, but for the rows in kept. */
  ghost predicate Swept(rows0: Rows, objs0: map<ObjId, Obj>, gone: set<Key>, kept: set<Key>, rows: Rows, objs: map<ObjId, Obj>) {
    rows == rows0 - (gone - kept) && objs == objs0 - IdsOf(rows0, gone)
  }

  lemma SweptNothing(rows0: Rows, objs0: map<ObjId, Obj>, kept: set<Key>)
    ensures Swept(rows0, objs0, {}, kept, rows0, objs0)
  {
    assert rows0 - ({} - kept) == rows0;
    assert objs0 - IdsOf(rows0, {}) == objs0;
  }

  lemma SweptOneMore(rows0: Rows, objs0: map<ObjId, Obj>, gone: set<Key>, kept: set<Key>,
                     rows: Rows, objs: map<ObjId, Obj>, k: Key)
    requires Swept(rows0, objs0, gone, kept, rows, objs) && k in rows0
    ensures Swept(rows0, objs0, gone + {k}, kept, if k in kept then rows else rows - {k}, objs - {rows0[k].remoteId})
  {
    assert IdsOf(rows0, gone + {k}) == IdsOf(rows0, gone) + {rows0[k].remoteId};
    assert objs0 - IdsOf(rows0, gone + {k}) == objs - {rows0[k].remoteId};
    if k in kept {
      assert gone + {k} - kept == gone - kept;
    } else {
      assert rows0 - (gone + {k} - kept) == rows - {k};
    }
  }

  lemma Tally(all: set<Key>, left: set<Key>, fails: set<Key>, gone: set<Key>, kept: set<Key>, k: Key)
    requires k in left && left <= all && gone == all - left - fails
    ensures k !in gone && |left - {k}| == |left| - 1 && left - {k} <= all
    ensures k in fails ==> gone == all - (left - {k}) - fails
    ensures k !in fails ==> gone + {k} == all - (left - {k}) - fails
    ensures |gone + {k} - kept| == |gone - kept| + if k in kept then 0 else 1
  {
    assert gone + {k} - kept == if k in kept then gone - kept else gone - kept + {k};
  }

  lemma TallyKept(all: set<Key>, gone: set<Key>, kept: set<Key>, k: Key)
    requires gone <= all && k in all && gone - kept == gone
    ensures gone + {k} <= all
    ensures if k in kept then gone + {k} - kept != gone + {k} else gone + {k} - kept == gone + {k}
  {
    if k in kept { assert k !in gone + {k} - kept; }
  }

  /** How far a purge has come: of the keys that are not left all but the failing ones are gone, with their rows. */
  ghost predicate PurgedSoFar(rows0: Rows, objs0: map<ObjId, Obj>, keys: set<Key>, left: set<Key>, fails: set<Key>,
                              gone: set<Key>, kept: set<Key>, rows: Rows, objs: map<ObjId, Obj>) {
    && left <= keys <= rows0.Keys && gone == keys - left - fails && gone - kept == gone
    && Swept(rows0, objs0, gone, kept, rows, objs)
  }

  lemma PurgedOneMore(rows0: Rows, objs0: map<ObjId, Obj>, keys: set<Key>, left: set<Key>, fails: set<Key>,
                      gone: set<Key>, kept: set<Key>, rows: Rows, objs: map<ObjId, Obj>, k: Key)
    requires PurgedSoFar(rows0, objs0, keys, left, fails, gone, kept, rows, objs) && k in left
    ensures k in rows && rows[k] == rows0[k] && |left - {k}| < |left|
    ensures k in fails ==> PurgedSoFar(rows0, objs0, keys, left - {k}, fails, gone, kept, rows, objs)
    ensures k !in fails ==>
              && gone + {k} <= keys && (k in kept <==> gone + {k} - kept != gone + {k})
              && |gone + {k} - kept| == |gone - kept| + (if k in kept then 0 else 1)
              && Swept(rows0, objs0, gone + {k}, kept, if k in kept then rows else rows - {k}, objs - {rows0[k].remoteId})
    ensures k !in fails && k !in kept ==>
              PurgedSoFar(rows0, objs0, keys, left - {k}, fails, gone + {k}, kept, rows - {k}, objs - {rows0[k].remoteId})
  {
    Tally(keys, left, fails, gone, kept, k);
    TallyKept(keys, gone, kept, k);
    SweptOneMore(rows0, objs0, gone, kept, rows, objs, k);
  }

  /** A TRASHED row on a connected account whose holding period, in days of 86400 seconds, is over. */
  predicate IsDue(rows: Rows, hold: map<RelId, int>, accounts: map<RelId, Account>, clients: set<Account>, now: Time, k: Key) {
    && k in rows && rows[k].status == Trashed && rows[k].deletedAt.Some?
    && k.rel in hold && rows[k].deletedAt.value + hold[k.rel] * 86_400 * 1_000_000_000 <= now
    && k.rel in accounts && accounts[k.rel] in clients
  }

  /** From rows0 and objs0 to rows and objs: any other row stays as it is, and an object goes only with a row
      that is due. */
  ghost predicate KeptUntilDue(rows0: Rows, objs0: map<ObjId, Obj>, hold: map<RelId, int>, accounts: map<RelId, Account>,
                               clients: set<Account>, now: Time, rows: Rows, objs: map<ObjId, Obj>) {
    && (forall k :: k in rows0 && !IsDue(rows0, hold, accounts, clients, now, k) ==> k in rows && rows[k] == rows0[k])
    && (forall id :: id in objs0 ==>
          || (id in objs && objs[id] == objs0[id])
          || exists k :: IsDue(rows0, hold, accounts, clients, now, k) && rows0[k].remoteId == id)
  }

  /** A row that is due and not among the failing ones goes, with its object. */
  ghost predicate GoneWhenDue(rows0: Rows, hold: map<RelId, int>, accounts: map<RelId, Account>, clients: set<Account>, now: Time,
                              failing: set<Key>, rows: Rows, objs: map<ObjId, Obj>) {
    forall k :: IsDue(rows0, hold, accounts, clients, now, k) && k !in failing ==> k !in rows && rows0[k].remoteId !in objs
  }

  lemma SweepInDays(drive: Drive, rows: Rows, hold: map<RelId, int>, now: Time, f: Faults,
                    accounts: map<RelId, Account>, clients: set<Account>, failing: set<Key>)
    requires forall k :: k in rows && !(k.rel in accounts && accounts[k.rel] in clients) ==>
               k in f.deletes || k !in ExpiredKeys(rows, hold, now)
    requires forall k :: IsDue(rows, hold, accounts, clients, now, k) && k !in failing ==> k !in f.deletes && k !in f.rows && k !in f.unvisited
    ensures KeptUntilDue(rows, drive.objs, hold, accounts, clients, now, SweptRows(rows, hold, now, f), SweptDrive(drive, rows, hold, now, f).objs)
    ensures GoneWhenDue(rows, hold, accounts, clients, now, failing, SweptRows(rows, hold, now, f), SweptDrive(drive, rows, hold, now, f).objs)
  {
    forall id | id in drive.objs && id in IdsOf(rows, DeletedKeys(rows, hold, now, f))
      ensures exists k :: IsDue(rows, hold, accounts, clients, now, k) && rows[k].remoteId == id
    {
      var k :| k in DeletedKeys(rows, hold, now, f) && k in rows && rows[k].remoteId == id;
      assert IsDue(rows, hold, accounts, clients, now, k);
    }
  }

  class Manager {
    const store: Store
    const cloud: Cloud
    const hold: map<RelId, int>          // holding period, in days, of every configured relation
    const accounts: map<RelId, Account>  // which account each relation is on

    constructor (s: Store, c: Cloud, h: map<RelId, int>, a: map<RelId, Account>)
      ensures store == s && cloud == c && hold == h && accounts == a
    {
      store, cloud, hold, accounts := s, c, h, a;
    }

    predicate HasClient(clients: set<Account>, k: Key) { k.rel in accounts && accounts[k.rel] in clients }

    /** An entry's object stays when its account has no client or the delete call fails; an
        entry without an object has nothing that could fail. */
    predicate Undeletable(rows: Rows, clients: set<Account>, badDeletes: set<Key>, k: Key)
      requires k in rows
    {
      !HasClient(clients, k) || (rows[k].remoteId != "" && k in badDeletes)
    }

    /** One expired entry: delete its object, then drop its row. */
    method SweepEntry(k: Key, clients: set<Account>, badDeletes: set<Key>, badRows: set<Key>) returns (dropped: bool)
      requires k in store.rows && "" !in cloud.drive.objs
      modifies store`rows, cloud`drive
      ensures Undeletable(old(store.rows), clients, badDeletes, k) ==>
                !dropped && store.rows == old(store.rows) && cloud.drive == old(cloud.drive)
      ensures !Undeletable(old(store.rows), clients, badDeletes, k) ==>
                && dropped == (k !in badRows)
                && store.rows == (if k in badRows then old(store.rows) else old(store.rows) - {k})
                && cloud.drive == DropObject(old(cloud.drive), old(store.rows)[k].remoteId)
    {
      if !HasClient(clients, k) { return false; }
      if store.rows[k].remoteId != "" {
        var ok := cloud.PermanentDelete(store.rows[k].remoteId, k in badDeletes);
        if !ok { return false; }  // retried by the next sweep
      } else {
        assert cloud.drive.objs - {""} == cloud.drive.objs;
      }
      if k in badRows { return false; }
      store.DeleteFileRow(k);
      return true;
    }

    /** A sweep at time now. clients are the accounts with a delete capability, badDeletes and
        badRows the entries whose calls fail, and budget the number of entries it gets to
        before its context is cancelled. */
    method Sweep(now: Time, clients: set<Account>, badDeletes: set<Key>, badRows: set<Key>, budget: nat)
      returns (deleted: nat, ghost f: Faults)
      requires "" !in cloud.drive.objs
      modifies store`rows, cloud`drive
      ensures f.rows == badRows
      ensures forall k :: k in f.deletes <==>
                k in ExpiredKeys(old(store.rows), hold, now) && Undeletable(old(store.rows), clients, badDeletes, k)
      ensures f.unvisited <= ExpiredKeys(old(store.rows), hold, now)
      ensures budget >= |ExpiredKeys(old(store.rows), hold, now)| ==> f.unvisited == {}
      ensures budget < |ExpiredKeys(old(store.rows), hold, now)| ==>
                |f.unvisited| == |ExpiredKeys(old(store.rows), hold, now)| - budget
      ensures store.rows == SweptRows(old(store.rows), hold, now, f)
      ensures cloud.drive == SweptDrive(old(cloud.drive), old(store.rows), hold, now, f)
      ensures deleted == |DeletedKeys(old(store.rows), hold, now, f) - badRows|
      ensures KeptUntilDue(old(store.rows), old(cloud.drive).objs, hold, accounts, clients, now, store.rows, cloud.drive.objs)
      ensures GoneWhenDue(old(store.rows), hold, accounts, clients, now, badDeletes + badRows + f.unvisited, store.rows, cloud.drive.objs)
    {
      ghost var rows0, drive0 := store.rows, cloud.drive;
      var expired := ExpiredKeys(store.rows, hold, now);
      ghost var all := expired;
      ghost var fails := set k | k in all && Undeletable(rows0, clients, badDeletes, k);
      ghost var gone: set<Key> := {};
      var visited := 0;
      deleted := 0;
      SweptNothing(rows0, drive0.objs, badRows);
      while expired != {} && visited < budget
        invariant expired <= all && gone == all - expired - fails
        invariant |expired| + visited == |all| && visited <= budget
        invariant Swept(rows0, drive0.objs, gone, badRows, store.rows, cloud.drive.objs)
        invariant cloud.drive.used == drive0.used && "" !in cloud.drive.objs
        invariant deleted == |gone - badRows|
        decreases expired
      {
        var k :| k in expired;
        Tally(all, expired, fails, gone, badRows, k);
        SweptOneMore(rows0, drive0.objs, gone, badRows, store.rows, cloud.drive.objs, k);
        var dropped := SweepEntry(k, clients, badDeletes, badRows);
        if dropped { deleted := deleted + 1; }
        gone := if k in fails then gone else gone + {k};
        expired := expired - {k};
        visited := visited + 1;
      }
      f := Faults(fails, badRows, expired);
      assert gone == DeletedKeys(rows0, hold, now, f);
      SweepInDays(drive0, rows0, hold, now, f, accounts, clients, badDeletes + badRows + expired);
    }

    function Stuck(rows: Rows, clients: set<Account>, badDeletes: set<Key>, keys: set<Key>): set<Key>
      requires keys <= rows.Keys
    {
      set k | k in keys && Undeletable(rows, clients, badDeletes, k)
    }

    /** The purge loop: like a sweep's, except that a row that cannot be dropped stops it. */
    method PurgeEntries(keys: set<Key>, clients: set<Account>, badDeletes: set<Key>, badRows: set<Key>)
      returns (purged: nat, ok: bool, ghost gone: set<Key>)
      requires "" !in cloud.drive.objs && keys <= store.rows.Keys
      modifies store`rows, cloud`drive
      ensures Swept(old(store.rows), old(cloud.drive).objs, gone, badRows, store.rows, cloud.drive.objs)
      ensures gone <= keys - Stuck(old(store.rows), clients, badDeletes, keys) && purged == |gone - badRows|
      ensures ok ==> gone == keys - Stuck(old(store.rows), clients, badDeletes, keys) && gone - badRows == gone
      ensures !ok ==> gone - badRows != gone
    {
      ghost var rows0, objs0 := store.rows, cloud.drive.objs;
      ghost var fails := Stuck(rows0, clients, badDeletes, keys);
      var todo := keys;
      gone, purged := {}, 0;
      SweptNothing(rows0, objs0, badRows);
      while todo != {}
        invariant PurgedSoFar(rows0, objs0, keys, todo, fails, gone, badRows, store.rows, cloud.drive.objs)
        invariant purged == |gone - badRows| && "" !in cloud.drive.objs
        decreases |todo|
      {
        var k :| k in todo;
        PurgedOneMore(rows0, objs0, keys, todo, fails, gone, badRows, store.rows, cloud.drive.objs, k);
        var stuck := Undeletable(store.rows, clients, badDeletes, k);
        var dropped := SweepEntry(k, clients, badDeletes, badRows);
        todo := todo - {k};
        if !stuck {
          gone := gone + {k};
          if !dropped { return purged, false, gone; }
          purged := purged + 1;
        }
      }
      ok := true;
    }
  }

  /** A sweep's effect on the stores is that of sweep events of the daemon's life, one per
      deleted entry, so everything proved of lives holds of sweeps. */
  lemma {:induction false} SweepIsALife(w: World, hold: map<RelId, int>, now: Time, todo: set<Key>, kept: set<Key>)
    returns (events: seq<Event>)
    requires todo <= ExpiredKeys(w.rows, hold, now)
    ensures Lives(w, hold, events)
    ensures var v := Life(w, hold, events);
      && Swept(w.rows, w.drive.objs, todo, kept, v.rows, v.drive.objs)
      && v == w.(rows := v.rows, drive := w.drive.(objs := v.drive.objs))
    ensures forall i :: 0 <= i < |events| ==> events[i].Sweep? && events[i].now == now && events[i].key in todo
    decreases |todo|
  {
    if todo == {} {
      events := [];
      SweptNothing(w.rows, w.drive.objs, kept);
    } else {
      var k :| k in todo;
      var e := Sweep(k, now, k !in kept);
      var w1 := After(w, hold, e);
      var rest := SweepIsALife(w1, hold, now, todo - {k}, kept);
      events := [e] + rest;
      assert events[1..] == rest;
      assert Life(w, hold, events) == Life(w1, hold, rest);
      SweptFirst(w.rows, w.drive.objs, todo, kept, k, w1.rows, w1.drive.objs);
    }
  }

  lemma SweptFirst(rows0: Rows, objs0: map<ObjId, Obj>, todo: set<Key>, kept: set<Key>, k: Key,
                   rows1: Rows, objs1: map<ObjId, Obj>)
    requires k in todo && todo <= rows0.Keys
    requires rows1 == (if k in kept then rows0 else rows0 - {k}) && objs1 == objs0 - {rows0[k].remoteId}
    ensures rows1 - (todo - {k} - kept) == rows0 - (todo - kept)
    ensures objs1 - IdsOf(rows1, todo - {k}) == objs0 - IdsOf(rows0, todo)
  {
    forall id | id in IdsOf(rows0, todo) ensures id in IdsOf(rows1, todo - {k}) + {rows0[k].remoteId} {
      var l :| l in todo && l in rows0 && rows0[l].remoteId == id;
      if l != k { assert l in todo - {k} && l in rows1; }
    }
    assert k in todo && k in rows0;
  }

  // ---- rerunning a sweep ----

  /** A sweep with any faults followed by a failure-free one, at the same time or later, ends
      where the failure-free one alone would have ended: deleting an object that is already
      gone succeeds, and a row that survived is found again. */
  lemma RerunCatchesUp(drive: Drive, rows: Rows, hold: map<RelId, int>, now: Time, f: Faults, later: Time)
    requires now <= later
    ensures var rows1, drive1 := SweptRows(rows, hold, now, f), SweptDrive(drive, rows, hold, now, f);
      && SweptRows(rows1, hold, later, NO_FAULTS) == SweptRows(rows, hold, later, NO_FAULTS)
      && SweptDrive(drive1, rows1, hold, later, NO_FAULTS) == SweptDrive(drive, rows, hold, later, NO_FAULTS)
  {
    var rows1, drive1 := SweptRows(rows, hold, now, f), SweptDrive(drive, rows, hold, now, f);
    var all, again := ExpiredKeys(rows, hold, later), ExpiredKeys(rows1, hold, later);
    var first := DeletedKeys(rows, hold, now, f);
    assert first <= all;
    assert all - {} - {} == all && again - {} - {} == again;
    assert all - {} == all && again - {} == again;
    assert again == all - (first - f.rows);
    assert rows1 - again == rows - all;
    assert IdsOf(rows, all) == IdsOf(rows, first) + IdsOf(rows1, again);
    assert drive1.objs - IdsOf(rows1, again) == drive.objs - IdsOf(rows, all);
  }

  /** A sweep drops exactly the expired entries whose delete and row removal succeed and
      leaves every other row, and every object no such entry names, as it was. */
  lemma SweepIsExact(drive: Drive, rows: Rows, hold: map<RelId, int>, now: Time, f: Faults, k: Key, id: ObjId)
    ensures k in SweptRows(rows, hold, now, f) <==>
              k in rows && !(k.rel in hold && Expired(rows[k], hold[k.rel], now)
                             && k !in f.unvisited && k !in f.deletes && k !in f.rows)
    ensures k in SweptRows(rows, hold, now, f) ==> SweptRows(rows, hold, now, f)[k] == rows[k]
    ensures id in SweptDrive(drive, rows, hold, now, f).objs <==>
              id in drive.objs && !exists l :: l in DeletedKeys(rows, hold, now, f) && rows[l].remoteId == id
    ensures id in SweptDrive(drive, rows, hold, now, f).objs ==>
              SweptDrive(drive, rows, hold, now, f).objs[id] == drive.objs[id]
  {
  }
}
