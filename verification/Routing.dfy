/** Where a brand-new file goes: assignRelID in core/sync/engine.go, NextAccount in
    core/sync/space.go and ProvisionOverflow in core/cmd/syncdrived/main.go. */
module Routing {
  import opened SyncTypes
  import opened PlanSpec
  import opened StateStore
  import opened Space

  // ---- quotas that hold still ----

  /** A stretch of time during which the sources keep answering the same. */
  datatype Window = Window(sources: map<Account, Answer>, since: Time, until: Time, ttl: Time)

  /** The cached entry serves every quota call of the window. */
  predicate Fresh(b: Books, w: Window, a: Account) {
    a in b.cache && w.until - b.cache[a].fetched < w.ttl
  }

  /** Readings hold still: a cached entry serves the whole window, or none of it, or says what the
      source would answer. */
  ghost predicate Steady(b: Books, w: Window) {
    forall a :: SteadyAt(b, w, a)
  }

  ghost predicate SteadyAt(b: Books, w: Window, a: Account) {
    a in b.cache && !Fresh(b, w, a) ==>
      || w.since - b.cache[a].fetched >= w.ttl
      || (a in w.sources && w.sources[a] == Quota(b.cache[a].limit, b.cache[a].usage)
          && At0(b.lastUsage, a) == b.cache[a].usage)
  }

  /** The account's quota, as every call of the window reads it. */
  function Reading(b: Books, w: Window, a: Account): Info {
    if Fresh(b, w, a) then Info(b.cache[a].limit, b.cache[a].usage)
    else if a !in w.sources then Unread
    else match w.sources[a] case Down => Failed case Quota(l, u) => Info(l, u)
  }

  /** The pending estimate the next decision about the account will use. */
  function Settled(b: Books, w: Window, a: Account): int {
    if Fresh(b, w, a) || a !in w.sources || w.sources[a].Down? then At0(b.pending, a)
    else Decayed(At0(b.pending, a), At0(b.lastUsage, a), w.sources[a].usage)
  }

  /** The account can take a file of this size above its reserve, as the manager sees it. */
  predicate CanTake(b: Books, w: Window, t: Threshold, a: Account, size: int)
    requires t.den > 0
  {
    match Reading(b, w, a)
    case Unread => true
    case Failed => true
    case Info(limit, usage) => limit <= 0 || size <= limit - usage - Settled(b, w, a) - Reserve(limit, t)
  }

  /** From books b to books c, at most a reservation of size bytes on account at was added. */
  ghost predicate Shifted(b: Books, c: Books, w: Window, at: Option<Account>, size: int) {
    Steady(c, w) && forall a :: ShiftedAt(b, c, w, at, size, a)
  }

  ghost predicate ShiftedAt(b: Books, c: Books, w: Window, at: Option<Account>, size: int, a: Account) {
    && Reading(c, w, a) == Reading(b, w, a)
    && Settled(c, w, a) == Settled(b, w, a) + if at == Some(a) && Gated(Reading(b, w, a)) then size else 0
  }

  ghost predicate NonNegative(b: Books, w: Window) {
    forall a :: Settled(b, w, a) >= 0
  }

  ghost predicate NonZeroIds(chain: seq<FolderTarget>) {
    forall i :: 0 <= i < |chain| ==> chain[i].id != 0
  }

  lemma QuotaIsSteady(b: Books, w: Window, a: Account, now: Time)
    requires Steady(b, w) && w.since <= now <= w.until
    ensures QuotaInfo(b, w.sources, a, now, w.ttl) == Reading(b, w, a)
    ensures Shifted(b, QuotaBooks(b, w.sources, a, now, w.ttl), w, None, 0)
    ensures At0(QuotaBooks(b, w.sources, a, now, w.ttl).pending, a) == Settled(b, w, a)
    ensures Settled(QuotaBooks(b, w.sources, a, now, w.ttl), w, a) == At0(QuotaBooks(b, w.sources, a, now, w.ttl).pending, a)
    ensures Gated(Reading(b, w, a)) ==> Kept(QuotaBooks(b, w.sources, a, now, w.ttl), w, a)
  {
    var c := QuotaBooks(b, w.sources, a, now, w.ttl);
    assert SteadyAt(b, w, a);
    forall x ensures SteadyAt(c, w, x) && ShiftedAt(b, c, w, None, 0, x) {
      assert SteadyAt(b, w, x);
    }
  }

  /** No fetch of the window changes the account's estimate any more. */
  ghost predicate Kept(b: Books, w: Window, a: Account) {
    Fresh(b, w, a) || (a in w.sources && w.sources[a].Quota? && At0(b.lastUsage, a) == w.sources[a].usage)
  }

  lemma ShiftedTwice(b: Books, c: Books, d: Books, w: Window, at: Option<Account>, size: int)
    requires Shifted(b, c, w, None, 0) && Shifted(c, d, w, at, size)
    ensures Shifted(b, d, w, at, size)
  {
    forall a ensures ShiftedAt(b, d, w, at, size, a) {
      assert ShiftedAt(b, c, w, None, 0, a) && ShiftedAt(c, d, w, at, size, a);
    }
  }

  lemma ShiftedNothing(b: Books, w: Window)
    requires Steady(b, w)
    ensures Shifted(b, b, w, None, 0)
  {
    forall a ensures ShiftedAt(b, b, w, None, 0, a) {}
  }

  lemma ReserveShifts(c: Books, w: Window, a: Account, size: int, t: Threshold)
    requires Steady(c, w) && t.den > 0 && (Gated(Reading(c, w, a)) ==> Kept(c, w, a))
    ensures var i := Reading(c, w, a);
      Shifted(c, ReserveBooks(c, i, a, size, t), w, if Fits(c, i, a, size, t) then Some(a) else None, size)
  {
    var i := Reading(c, w, a);
    var d := ReserveBooks(c, i, a, size, t);
    forall x ensures SteadyAt(d, w, x) && ShiftedAt(c, d, w, if Fits(c, i, a, size, t) then Some(a) else None, size, x) {
      assert SteadyAt(c, w, x);
    }
  }

  lemma ReserveIsSteady(b: Books, w: Window, a: Account, size: int, now: Time, t: Threshold)
    requires Steady(b, w) && t.den > 0 && w.since <= now <= w.until
    ensures var i, c := QuotaInfo(b, w.sources, a, now, w.ttl), QuotaBooks(b, w.sources, a, now, w.ttl);
      var ok := Fits(c, i, a, size, t);
      && ok == CanTake(b, w, t, a, size)
      && Shifted(b, ReserveBooks(c, i, a, size, t), w, if ok then Some(a) else None, size)
  {
    var i, c := QuotaInfo(b, w.sources, a, now, w.ttl), QuotaBooks(b, w.sources, a, now, w.ttl);
    QuotaIsSteady(b, w, a, now);
    assert ShiftedAt(b, c, w, None, 0, a);
    ReserveShifts(c, w, a, size, t);
    ShiftedTwice(b, c, ReserveBooks(c, i, a, size, t), w, if Fits(c, i, a, size, t) then Some(a) else None, size);
  }

  lemma SameRoom(b: Books, c: Books, w: Window, t: Threshold, size: int)
    requires t.den > 0 && Shifted(b, c, w, None, size)
    ensures forall a, n :: CanTake(c, w, t, a, n) == CanTake(b, w, t, a, n)
  {
    forall a, n ensures CanTake(c, w, t, a, n) == CanTake(b, w, t, a, n) {
      assert ShiftedAt(b, c, w, None, size, a);
    }
  }

  /** From books b to books c, no account got more room. */
  ghost predicate Tighter(b: Books, c: Books, w: Window) {
    forall a :: TighterAt(b, c, w, a)
  }

  ghost predicate TighterAt(b: Books, c: Books, w: Window, a: Account) {
    Reading(c, w, a) == Reading(b, w, a) && Settled(b, w, a) <= Settled(c, w, a)
  }

  lemma ShiftedIsTighter(b: Books, c: Books, w: Window, at: Option<Account>, size: nat)
    requires Shifted(b, c, w, at, size)
    ensures Tighter(b, c, w)
  {
    forall a ensures TighterAt(b, c, w, a) { assert ShiftedAt(b, c, w, at, size, a); }
  }

  /** Every authenticated account is too full for the file. */
  ghost predicate FullFor(b: Books, accounts: seq<Account>, w: Window, t: Threshold, size: int)
    requires t.den > 0
  {
    forall i :: 0 <= i < |accounts| && accounts[i] in w.sources ==> !CanTake(b, w, t, accounts[i], size)
  }

  lemma TighterStaysFull(b: Books, c: Books, accounts: seq<Account>, w: Window, t: Threshold, size: int)
    requires t.den > 0 && Tighter(b, c, w) && FullFor(b, accounts, w, t, size)
    ensures FullFor(c, accounts, w, t, size)
  {
    forall i | 0 <= i < |accounts| && accounts[i] in w.sources ensures !CanTake(c, w, t, accounts[i], size) {
      assert TighterAt(b, c, w, accounts[i]);
    }
  }

  // ---- one reservation after another ----

  /** One call of TryReserve: the account, the books it found and the time it looked. */
  datatype Turn = Turn(account: Account, b: Books, now: Time)

  /** How reservations are answered: the quota sources, the cache lifetime and the threshold. */
  datatype Desk = Desk(sources: map<Account, Answer>, ttl: Time, t: Threshold)

  predicate Refused(u: Turn, d: Desk, size: int)
    requires d.t.den > 0
  {
    !Fits(QuotaBooks(u.b, d.sources, u.account, u.now, d.ttl), QuotaInfo(u.b, d.sources, u.account, u.now, d.ttl), u.account, size, d.t)
  }

  function Leaves(u: Turn, d: Desk, size: int): Books
    requires d.t.den > 0
  {
    ReserveBooks(QuotaBooks(u.b, d.sources, u.account, u.now, d.ttl), QuotaInfo(u.b, d.sources, u.account, u.now, d.ttl),
                 u.account, size, d.t)
  }

  /** The first n accounts of the chain were asked in order, and each refused at its own turn. */
  ghost predicate RefusedBy(turns: seq<Turn>, chain: seq<FolderTarget>, n: nat, d: Desk, size: int)
    requires d.t.den > 0
  {
    n <= |turns| && n <= |chain| && forall j :: 0 <= j < n ==> RefusedAt(turns, chain, j, d, size)
  }

  ghost predicate RefusedAt(turns: seq<Turn>, chain: seq<FolderTarget>, j: int, d: Desk, size: int)
    requires d.t.den > 0
  {
    0 <= j < |turns| && j < |chain| && turns[j].account == chain[j].account && Refused(turns[j], d, size)
  }

  /** rel is on the first account of the chain to accept, every earlier one having refused. */
  ghost predicate AcceptedBy(turns: seq<Turn>, chain: seq<FolderTarget>, rel: RelId, d: Desk, size: int)
    requires d.t.den > 0
  {
    && 0 < |turns| <= |chain| && RefusedBy(turns, chain, |turns| - 1, d, size)
    && var i := |turns| - 1;
       turns[i].account == chain[i].account && !Refused(turns[i], d, size) && rel == chain[i].id
  }

  /** The first n turns follow each other directly, from books b on. */
  ghost predicate InTurn(turns: seq<Turn>, n: nat, b: Books, d: Desk, size: int)
    requires d.t.den > 0
  {
    forall j :: 0 <= j < n ==> InTurnAt(turns, j, b, d, size)
  }

  ghost predicate InTurnAt(turns: seq<Turn>, j: int, b: Books, d: Desk, size: int)
    requires d.t.den > 0
  {
    0 <= j < |turns| ==> turns[j].b == if j == 0 then b else Leaves(turns[j - 1], d, size)
  }

  /** A run of direct refusals: the turns so far, from books b0, and the books they left. */
  ghost predicate RefusedSoFar(turns: seq<Turn>, chain: seq<FolderTarget>, b0: Books, b: Books, d: Desk, size: int)
    requires d.t.den > 0
  {
    && RefusedBy(turns, chain, |turns|, d, size) && InTurn(turns, |turns|, b0, d, size)
    && b == if turns == [] then b0 else Leaves(turns[|turns| - 1], d, size)
  }

  lemma OneMoreTurn(turns: seq<Turn>, u: Turn, chain: seq<FolderTarget>, b0: Books, d: Desk, size: int)
    requires d.t.den > 0 && RefusedSoFar(turns, chain, b0, u.b, d, size)
    requires |turns| < |chain| && u.account == chain[|turns|].account
    ensures Refused(u, d, size) ==> RefusedSoFar(turns + [u], chain, b0, Leaves(u, d, size), d, size)
    ensures !Refused(u, d, size) ==> AcceptedBy(turns + [u], chain, chain[|turns|].id, d, size)
    ensures InTurn(turns + [u], |chain|, b0, d, size)
  {
    var more := turns + [u];
    forall j | 0 <= j < |more| ensures j < |turns| ==> RefusedAt(more, chain, j, d, size) {
      assert j < |turns| ==> RefusedAt(turns, chain, j, d, size);
    }
    forall j | 0 <= j ensures InTurnAt(more, j, b0, d, size) { assert j < |turns| ==> InTurnAt(turns, j, b0, d, size); }
  }

  /** The account appended to the chain is asked after all others refused. */
  lemma LastTurn(turns: seq<Turn>, u: Turn, chain: seq<FolderTarget>, t: FolderTarget, d: Desk, size: int)
    requires d.t.den > 0 && |turns| == |chain| && RefusedBy(turns, chain, |chain|, d, size) && u.account == t.account
    ensures Refused(u, d, size) ==> RefusedBy(turns + [u], chain + [t], |chain| + 1, d, size)
    ensures !Refused(u, d, size) ==> AcceptedBy(turns + [u], chain + [t], t.id, d, size)
  {
    forall j | 0 <= j < |chain| ensures RefusedAt(turns + [u], chain + [t], j, d, size) {
      assert RefusedAt(turns, chain, j, d, size);
    }
  }

  lemma SameTurns(turns: seq<Turn>, longer: seq<Turn>, b: Books, d: Desk, size: int)
    requires d.t.den > 0 && InTurn(turns, |turns|, b, d, size) && turns <= longer
    ensures InTurn(longer, |turns|, b, d, size)
  {
    forall j | 0 <= j < |turns| ensures InTurnAt(longer, j, b, d, size) {
      assert InTurnAt(turns, j, b, d, size) && longer[j] == turns[j] && (j > 0 ==> longer[j - 1] == turns[j - 1]);
    }
  }

  // ---- the router ----

  function AccountsOf(chain: seq<FolderTarget>): set<Account> { set i | 0 <= i < |chain| :: chain[i].account }

  /** No authenticated account outside the chain passes the free-space test. */
  ghost predicate NoneRoomy(b: Books, accounts: seq<Account>, w: Window, t: Threshold, inChain: set<Account>)
    requires t.den > 0
  {
    forall i :: 0 <= i < |accounts| && accounts[i] in w.sources && accounts[i] !in inChain ==> !Roomy(Reading(b, w, accounts[i]), t)
  }

  /** The i-th account is the first one NextAccount may choose. */
  ghost predicate NextRoomy(b: Books, quiet: bool, accounts: seq<Account>, w: Window, t: Threshold, exclude: set<Account>,
                            i: int, a: Account)
    requires t.den > 0
  {
    && 0 <= i < |accounts| && accounts[i] == a
    && a !in exclude && a in w.sources
    && (quiet ==> Roomy(Reading(b, w, a), t) && NoneRoomy(b, accounts[..i], w, t, exclude))
  }

  /** What every decision leaves as it was. */
  lemma ShiftKeeps(b: Books, c: Books, w: Window, at: Option<Account>, size: nat, accounts: seq<Account>, t: Threshold, inChain: set<Account>)
    requires Shifted(b, c, w, at, size) && t.den > 0
    ensures NonNegative(b, w) ==> NonNegative(c, w)
    ensures NoneRoomy(b, accounts, w, t, inChain) <==> NoneRoomy(c, accounts, w, t, inChain)
  {
    forall a ensures Reading(c, w, a) == Reading(b, w, a) && Settled(c, w, a) >= Settled(b, w, a) {
      assert ShiftedAt(b, c, w, at, size, a);
    }
  }

  class Router {
    const space: SpaceManager
    const store: Store
    const smart: bool          // false when space management is off: everything goes to the primary
    const canProvision: bool   // false when auto-provisioning is off
    const broken: set<Account> // accounts without a client, or whose container cannot be created
    const holdDays: int
    var chain: seq<FolderTarget>
    var inChain: set<Account>
    var provisionExhausted: bool
    ghost var lowOnly: bool    // provisioning gave up because no account is roomy
    ghost const still: bool    // from since to until, quota readings hold still
    ghost const since: Time
    ghost const until: Time

    constructor (sp: SpaceManager, st: Store, smart: bool, canProvision: bool, broken: set<Account>, holdDays: int,
                 chain: seq<FolderTarget>, ghost still: bool, ghost until: Time)
      requires chain != [] && NonZeroIds(chain) && sp.Valid()
      requires var w := Window(sp.sources, sp.clock, until, sp.ttl);
        still ==> Steady(sp.Current(), w) && NonNegative(sp.Current(), w)
      ensures Valid()
      ensures space == sp && store == st && this.smart == smart && this.canProvision == canProvision && this.broken == broken
      ensures this.still == still && this.until == until && since == sp.clock
      ensures this.chain == chain && inChain == AccountsOf(chain) && !provisionExhausted
    {
      space, store, this.smart, this.canProvision, this.broken, this.holdDays := sp, st, smart, canProvision, broken, holdDays;
      this.chain, inChain, provisionExhausted := chain, AccountsOf(chain), false;
      lowOnly, this.still, since, this.until := false, still, sp.clock, until;
    }

    ghost function Span(): Window
      reads space
    {
      Window(space.sources, since, until, space.ttl)
    }

    function Asked(): Desk
      reads space
    {
      Desk(space.sources, space.ttl, space.threshold)
    }

    /** Quota readings hold still, and have so far. */
    ghost predicate Quiet()
      reads space
    {
      still && space.clock <= until
    }

    ghost predicate Valid()
      reads this, space
    {
      && space.Valid() && since <= space.clock
      && (Quiet() ==> Steady(space.Current(), Span()) && NonNegative(space.Current(), Span()))
      && chain != [] && inChain == AccountsOf(chain) && NonZeroIds(chain)
      && (provisionExhausted && lowOnly && Quiet() ==>
            NoneRoomy(space.Current(), space.accounts, Span(), space.threshold, inChain))
      && (broken == {} && provisionExhausted ==> lowOnly)
    }

    /** If quotas hold still, the books moved from b by at most a reservation of size bytes on account at. */
    ghost predicate Moves(b: Books, at: Option<Account>, size: int)
      reads this, space
    {
      Quiet() ==> Shifted(b, space.Current(), Span(), at, size)
    }

    /** The first authenticated account, in the order accounts were added, that is not
        excluded and passes the free-space test. */
    method NextAccount(exclude: set<Account>) returns (r: Option<Account>)
      requires space.Valid() && since <= space.clock && (Quiet() ==> Steady(space.Current(), Span()))
      modifies space`clock, space`cache, space`pending, space`lastUsage
      ensures old(space.clock) <= space.clock && Moves(old(space.Current()), None, 0)
      ensures r.Some? ==> exists i ::
                NextRoomy(old(space.Current()), Quiet(), space.accounts, Span(), space.threshold, exclude, i, r.value)
      ensures r.None? && Quiet() ==> NoneRoomy(old(space.Current()), space.accounts, Span(), space.threshold, exclude)
    {
      ghost var b0 := space.Current();
      if Quiet() { ShiftedNothing(b0, Span()); }
      var i := 0;
      while i < |space.accounts|
        invariant 0 <= i <= |space.accounts| && old(space.clock) <= space.clock
        invariant Moves(b0, None, 0)
        invariant Quiet() ==> NoneRoomy(b0, space.accounts[..i], Span(), space.threshold, exclude)
      {
        var a := space.accounts[i];
        assert space.accounts[..i + 1] == space.accounts[..i] + [a];
        if a !in exclude && a in space.sources {
          ghost var b, quiet := space.Current(), Quiet();
          var ok := space.HasSpace(a);
          if Quiet() {
            assert quiet;
            QuotaIsSteady(b, Span(), a, space.clock);
            assert ShiftedAt(b0, b, Span(), None, 0, a);
            ShiftedTwice(b0, b, space.Current(), Span(), None, 0);
          }
          if ok {
            assert NextRoomy(b0, Quiet(), space.accounts, Span(), space.threshold, exclude, i, a);
            return Some(a);
          }
        }
        i := i + 1;
      }
      assert space.accounts[..i] == space.accounts;
      return None;
    }

    /** A spillover relation on the next roomy account. */
    method ProvisionOverflow(exclude: set<Account>) returns (r: Option<FolderTarget>)
      requires Valid()
      modifies space`clock, space`cache, space`pending, space`lastUsage, store`targets
      ensures Valid() && old(space.clock) <= space.clock && Moves(old(space.Current()), None, 0)
      ensures r.None? ==> store.targets == old(store.targets)
      ensures r.None? && broken == {} && Quiet() ==>
                NoneRoomy(space.Current(), space.accounts, Span(), space.threshold, exclude)
      // The next roomy account decides: its relation is the answer, unless its container cannot be created.
      ensures r.None? && Quiet() ==>
                || NoneRoomy(old(space.Current()), space.accounts, Span(), space.threshold, exclude)
                || exists i, a :: a in broken && NextRoomy(old(space.Current()), true, space.accounts, Span(), space.threshold, exclude, i, a)
      ensures r.Some? ==> r.value.account !in broken && exists i ::
                NextRoomy(old(space.Current()), Quiet(), space.accounts, Span(), space.threshold, exclude, i, r.value.account)
      ensures r.Some? ==> && r.value.account !in exclude && r.value.account in space.accounts && r.value.account in space.sources
                          && r.value.overflowOf == chain[0].id && r.value.id == NextId(old(store.targets))
                          && store.targets == old(store.targets) + [TargetInfo(r.value, holdDays)]
    {
      ghost var b, quiet := space.Current(), Quiet();
      var account := NextAccount(exclude);
      if Quiet() {
        assert quiet;
        ShiftKeeps(b, space.Current(), Span(), None, 0, space.accounts, space.threshold, inChain);
        ShiftKeeps(b, space.Current(), Span(), None, 0, space.accounts, space.threshold, exclude);
      }
      if account.None? { return None; }
      ghost var i :| NextRoomy(b, Quiet(), space.accounts, Span(), space.threshold, exclude, i, account.value);
      if account.value in broken { return None; }
      var t := FolderTarget(0, account.value, chain[0].id);
      var id := store.AddFolderTarget(t, holdDays);
      r := Some(t.(id := id));
      assert NextRoomy(b, Quiet(), space.accounts, Span(), space.threshold, exclude, i, r.value.account);
    }

    /** Asks one account. */
    method Ask(a: Account, size: nat, ghost b0: Books) returns (ok: bool, ghost u: Turn)
      requires Valid() && Moves(b0, None, 0)
      modifies space`clock, space`cache, space`pending, space`lastUsage
      ensures Valid() && old(space.clock) <= space.clock
      ensures u == Turn(a, old(space.Current()), space.clock)
      ensures ok == !Refused(u, Asked(), size) && space.Current() == Leaves(u, Asked(), size)
      ensures Moves(b0, if ok then Some(a) else None, if ok then size else 0)
      ensures Quiet() ==> ok == CanTake(b0, Span(), space.threshold, a, size)
    {
      ghost var b, quiet := space.Current(), Quiet();
      ok := space.TryReserve(a, size);
      u := Turn(a, b, space.clock);
      if Quiet() {
        assert quiet;
        AskShifts(b0, b, space.Current(), Span(), a, size, ok, space.clock, space.threshold);
        ShiftKeeps(b, space.Current(), Span(), if ok then Some(a) else None, if ok then size else 0,
                   space.accounts, space.threshold, inChain);
      }
    }

    /** Tries the chain's accounts in order. */
    method FirstFit(size: nat) returns (rel: RelId, ghost turns: seq<Turn>)
      requires Valid()
      modifies space`clock, space`cache, space`pending, space`lastUsage
      ensures Valid() && old(space.clock) <= space.clock
      ensures InTurn(turns, |chain|, old(space.Current()), Asked(), size)
      ensures rel == 0 ==>
                && |turns| == |chain| && RefusedBy(turns, chain, |chain|, Asked(), size)
                && Moves(old(space.Current()), None, 0) && Untaken(old(space.Current()), size)
      ensures rel != 0 ==>
                && AcceptedBy(turns, chain, rel, Asked(), size) && space.Current() == Leaves(turns[|turns| - 1], Asked(), size)
                && Chosen(old(space.Current()), |turns| - 1, rel, size)
                && Moves(old(space.Current()), Some(chain[|turns| - 1].account), size)
    {
      ghost var b0, d := space.Current(), Asked();
      if Quiet() { ShiftedNothing(b0, Span()); }
      turns := [];
      var i := 0;
      while i < |chain|
        invariant 0 <= i <= |chain| && Valid() && old(space.clock) <= space.clock && Asked() == d
        invariant |turns| == i && RefusedSoFar(turns, chain, b0, space.Current(), d, size)
        invariant Moves(b0, None, 0) && UntakenUpTo(b0, i, size)
      {
        ghost var u;
        var ok;
        ok, u := Ask(chain[i].account, size, b0);
        OneMoreTurn(turns, u, chain, b0, d, size);
        turns := turns + [u];
        if ok { return chain[i].id, turns; }
        i := i + 1;
      }
      return 0, turns;
    }

    /** If quotas hold still, rel is the first relation of the chain whose account could take the file
        when the books were b. */
    ghost predicate Chosen(b: Books, i: int, rel: RelId, size: int)
      requires space.threshold.den > 0
      reads this, space
    {
      && 0 <= i < |chain| && chain[i].id == rel && UntakenUpTo(b, i, size)
      && (Quiet() ==> CanTake(b, Span(), space.threshold, chain[i].account, size))
    }

    ghost predicate UntakenUpTo(b: Books, n: nat, size: int)
      requires space.threshold.den > 0 && n <= |chain|
      reads this, space
    {
      Quiet() ==> forall j :: 0 <= j < n ==> !CanTake(b, Span(), space.threshold, chain[j].account, size)
    }

    /** If quotas hold still, no account of the chain could take the file when the books were b. */
    ghost predicate Untaken(b: Books, size: int)
      requires space.threshold.den > 0
      reads this, space
    {
      UntakenUpTo(b, |chain|, size)
    }

    /** Appends a spillover relation to the chain, or gives up for the rest of the pass. */
    method Grow() returns (ghost t: FolderTarget)
      requires Valid() && !provisionExhausted
      modifies this`chain, this`inChain, this`provisionExhausted, this`lowOnly, store`targets
      modifies space`clock, space`cache, space`pending, space`lastUsage
      ensures Valid() && old(space.clock) <= space.clock && Moves(old(space.Current()), None, 0)
      ensures provisionExhausted ==> chain == old(chain) && store.targets == old(store.targets)
      ensures !provisionExhausted ==>
                && chain == old(chain) + [t] && store.targets == old(store.targets) + [TargetInfo(t, holdDays)]
                && t.overflowOf == old(chain)[0].id && t.id == NextId(old(store.targets))
      ensures !provisionExhausted ==> t.account !in old(inChain) && t.account in space.accounts && inChain == old(inChain) + {t.account}
    {
      t := chain[0];
      var next := ProvisionOverflow(inChain);
      if next.None? {
        GiveUp();
      } else {
        t := next.value;
        Append(next.value);
      }
    }

    /** One round of provisioning. r is 0 when the new relation cannot take the file either,
        or when there is none. */
    method Provision(size: nat, ghost b0: Books, ghost turns0: seq<Turn>)
      returns (r: RelId, ghost t: FolderTarget, ghost turns: seq<Turn>)
      requires Valid() && !provisionExhausted && smart
      requires Moves(b0, None, 0) && Untaken(b0, size)
      requires |turns0| == |chain| && RefusedBy(turns0, chain, |chain|, Asked(), size)
      modifies this`chain, this`inChain, this`provisionExhausted, this`lowOnly, store`targets
      modifies space`clock, space`cache, space`pending, space`lastUsage
      ensures Valid() && old(space.clock) <= space.clock && turns0 <= turns
      ensures provisionExhausted ==> r == 0 && chain == old(chain) && store.targets == old(store.targets)
      ensures !provisionExhausted ==>
                && chain == old(chain) + [t] && store.targets == old(store.targets) + [TargetInfo(t, holdDays)]
                && t.overflowOf == old(chain)[0].id && t.id == NextId(old(store.targets))
      ensures !provisionExhausted ==> t.account !in old(inChain) && t.account in space.accounts && inChain == old(inChain) + {t.account}
      ensures Outcome(b0, turns, r, size)
    {
      ghost var b, quiet := space.Current(), Quiet();
      t := Grow();
      if Quiet() {
        assert quiet;
        ShiftedTwice(b0, b, space.Current(), Span(), None, 0);
      }
      if provisionExhausted { return 0, t, turns0; }
      ghost var u;
      var last := chain[|chain| - 1];
      var ok;
      ok, u := Ask(last.account, size, b0);
      LastTurn(turns0, u, old(chain), last, Asked(), size);
      turns := turns0 + [u];
      r := if ok then last.id else 0;
    }

    /** Either every account of the chain refused and nothing was reserved, or the first that accepted
        has the reservation. */
    ghost predicate Outcome(b0: Books, turns: seq<Turn>, r: RelId, size: nat)
      requires space.threshold.den > 0
      reads this, space
    {
      if r == 0 then
        |turns| == |chain| && RefusedBy(turns, chain, |chain|, Asked(), size) && Moves(b0, None, 0) && Untaken(b0, size)
      else
        && AcceptedBy(turns, chain, r, Asked(), size) && space.Current() == Leaves(turns[|turns| - 1], Asked(), size)
        && Chosen(b0, |turns| - 1, r, size) && Moves(b0, Some(chain[|turns| - 1].account), size)
    }

    method GiveUp()
      requires Valid()
      requires broken == {} && Quiet() ==> NoneRoomy(space.Current(), space.accounts, Span(), space.threshold, inChain)
      modifies this`provisionExhausted, this`lowOnly
      ensures Valid() && provisionExhausted
    {
      provisionExhausted := true;
      lowOnly := Quiet() ==> NoneRoomy(space.Current(), space.accounts, Span(), space.threshold, inChain);
    }

    method Append(t: FolderTarget)
      requires Valid() && !provisionExhausted && t.id != 0
      modifies this`chain, this`inChain
      ensures Valid() && chain == old(chain) + [t] && inChain == old(inChain) + {t.account}
    {
      AppendAccount(chain, t);
      chain := chain + [t];
      inChain := inChain + {t.account};
    }

    /** Routes one new file. First fit over the chain, provisioning spillover relations until
        one can take it; 0 defers the file. */
    method AssignRelID(size: nat) returns (rel: RelId, ghost turns: seq<Turn>)
      requires Valid()
      modifies this`chain, this`inChain, this`provisionExhausted, this`lowOnly, store`targets
      modifies space`clock, space`cache, space`pending, space`lastUsage
      ensures Valid() && old(space.clock) <= space.clock
      ensures Extended(old(chain), chain, old(store.targets), store.targets)
      ensures DistinctAccounts(old(chain)) ==> DistinctAccounts(chain)
      ensures rel != 0 ==> InChain(chain, rel)
      ensures !smart ==> rel == chain[0].id && chain == old(chain) && space.Current() == old(space.Current())
      // First fit: the accounts of the chain, old relations before new ones, were asked in this order.
      // Each refused at its own turn, down to the one that accepted, or all did; with quotas
      // holding still, the earliest that could take the file when the call began has it.
      ensures smart ==> Outcome(old(space.Current()), turns, rel, size)
      ensures smart ==> InTurn(turns, |old(chain)|, old(space.Current()), Asked(), size)
      ensures Quiet() ==> Tighter(old(space.Current()), space.Current(), Span())
      // Complete: a non-empty file is deferred exactly when no account at all can take it.
      ensures Complete() && size > 0 ==> (rel == 0 <==> NobodyCanTake(old(space.Current()), size))
    {
      if Quiet() {
        ShiftedNothing(space.Current(), Span());
        ShiftedIsTighter(space.Current(), space.Current(), Span(), None, 0);
      }
      if !smart { return chain[0].id, []; }
      ghost var b0 := space.Current();
      rel, turns := FirstFit(size);
      if rel == 0 {
        ghost var direct, d := turns, Asked();
        rel, turns := ProvisionUntilFit(size, b0, turns);
        SameTurns(direct, turns, b0, d, size);
        if rel == 0 && Complete() && size > 0 { DeferredIsComplete(b0, size); }
      }
      if Quiet() {
        ShiftedIsTighter(b0, space.Current(), Span(), if rel == 0 then None else Some(chain[|turns| - 1].account), if rel == 0 then 0 else size);
      }
    }

    /** Quotas hold still, spillover relations may be provisioned and their containers can be
        created, and the threshold is a fraction. */
    ghost predicate Complete()
      reads space
    {
      Quiet() && smart && canProvision && broken == {} && space.threshold.num <= space.threshold.den
    }

    /** The provisioning loop. It ends because every round either gives up or takes an
        account out of those not yet in the chain. */
    method ProvisionUntilFit(size: nat, ghost b0: Books, ghost turns0: seq<Turn>) returns (rel: RelId, ghost turns: seq<Turn>)
      requires Valid() && smart && Outcome(b0, turns0, 0, size)
      modifies this`chain, this`inChain, this`provisionExhausted, this`lowOnly, store`targets
      modifies space`clock, space`cache, space`pending, space`lastUsage
      ensures Valid() && old(space.clock) <= space.clock && turns0 <= turns
      ensures Extended(old(chain), chain, old(store.targets), store.targets)
      ensures DistinctAccounts(old(chain)) ==> DistinctAccounts(chain)
      ensures Outcome(b0, turns, rel, size)
      ensures rel == 0 && canProvision ==> provisionExhausted
    {
      rel, turns := 0, turns0;
      ghost var chain0, targets0 := chain, store.targets;
      while canProvision && !provisionExhausted && rel == 0
        invariant Valid() && old(space.clock) <= space.clock && turns0 <= turns
        invariant Extended(chain0, chain, targets0, store.targets)
        invariant DistinctAccounts(chain0) ==> DistinctAccounts(chain)
        invariant Outcome(b0, turns, rel, size)
        decreases |AccountSet(space.accounts) - inChain|, if provisionExhausted then 0 else 1
      {
        ghost var chain1, targets1 := chain, store.targets;
        ghost var t;
        rel, t, turns := Provision(size, b0, turns);
        if !provisionExhausted {
          SmallerRest(AccountSet(space.accounts), AccountsOf(chain1), t.account);
          AppendAccount(chain1, t);
          AppendExtends(chain1, t, targets1, holdDays);
          ExtendedTwice(chain0, chain1, chain, targets0, targets1, store.targets);
        }
      }
    }

    /** The link between the fraction test, which stopped provisioning, and the byte test. */
    lemma DeferredIsComplete(b0: Books, size: int)
      requires Quiet() && Valid() && provisionExhausted && lowOnly && size > 0 && space.threshold.num <= space.threshold.den
      requires Untaken(b0, size) && Moves(b0, None, 0)
      ensures NobodyCanTake(b0, size)
    {
      forall i | 0 <= i < |space.accounts| && space.accounts[i] in space.sources
        ensures !CanTake(b0, Span(), space.threshold, space.accounts[i], size)
      {
        var a := space.accounts[i];
        if a in inChain {
          var j :| 0 <= j < |chain| && chain[j].account == a;
        } else {
          LowCannotTake(space.Current(), Span(), a, size, space.threshold);
          assert ShiftedAt(b0, space.Current(), Span(), None, 0, a);
        }
      }
    }

    /** No account can take the file: neither one of the chain nor an authenticated one outside it. */
    ghost predicate NobodyCanTake(b: Books, size: int)
      requires space.threshold.den > 0
      reads this, space
    {
      && Untaken(b, size)
      && (Quiet() ==> FullFor(b, space.accounts, Span(), space.threshold, size))
    }
  }

  lemma AskShifts(b0: Books, b: Books, c: Books, w: Window, a: Account, size: nat, ok: bool, now: Time, t: Threshold)
    requires t.den > 0 && Steady(b, w) && w.since <= now <= w.until && Shifted(b0, b, w, None, 0)
    requires var i, q := QuotaInfo(b, w.sources, a, now, w.ttl), QuotaBooks(b, w.sources, a, now, w.ttl);
      ok == Fits(q, i, a, size, t) && c == ReserveBooks(q, i, a, size, t)
    ensures ok == CanTake(b0, w, t, a, size)
    ensures Shifted(b, c, w, if ok then Some(a) else None, if ok then size else 0)
    ensures Shifted(b0, c, w, if ok then Some(a) else None, if ok then size else 0)
  {
    ReserveIsSteady(b, w, a, size, now, t);
    SameRoom(b0, b, w, t, 0);
    if !ok { NoneShift(b, c, w, size); }
    ShiftedTwice(b0, b, c, w, if ok then Some(a) else None, if ok then size else 0);
  }

  /** An authenticated account below the threshold can take no non-empty file. */
  lemma LowCannotTake(b: Books, w: Window, a: Account, size: int, t: Threshold)
    requires t.den > 0 && t.num > 0 && size > 0 && Settled(b, w, a) >= 0
    requires a in w.sources && !Roomy(Reading(b, w, a), t)
    ensures Gated(Reading(b, w, a)) ==> !CanTake(b, w, t, a, size)
    ensures t.num <= t.den ==> Gated(Reading(b, w, a))
  {
    if Gated(Reading(b, w, a)) {
      var c := Books(b.cache, b.pending[a := Settled(b, w, a)], b.lastUsage);
      LowTakesNothing(c, Reading(b, w, a), a, size, t);
    }
  }

  lemma AppendExtends(chain: seq<FolderTarget>, t: FolderTarget, targets: seq<TargetInfo>, days: int)
    requires chain != [] && t.overflowOf == chain[0].id && t.id == NextId(targets)
    ensures Extended(chain, chain + [t], targets, targets + [TargetInfo(t, days)])
  {
  }

  lemma ExtendedTwice(a: seq<FolderTarget>, b: seq<FolderTarget>, c: seq<FolderTarget>,
                      s: seq<TargetInfo>, t: seq<TargetInfo>, u: seq<TargetInfo>)
    requires Extended(a, b, s, t) && Extended(b, c, t, u) && a != []
    ensures Extended(a, c, s, u)
  {
    assert c[..|a|] == c[..|b|][..|a|];
    assert u[..|s|] == u[..|t|][..|s|];
    assert b[0] == b[..|a|][0];
    forall i | |a| <= i < |c| ensures c[i].overflowOf == a[0].id && NewIn(s, c[i].id) {
      if i < |b| {
        assert c[i] == c[..|b|][i];
      } else {
        forall j | 0 <= j < |s| ensures s[j].target.id < c[i].id { assert s[j] == t[..|s|][j]; }
      }
    }
  }

  function AccountSet(accounts: seq<Account>): set<Account> { set a | a in accounts }

  /** Pairwise different accounts. */
  ghost predicate DistinctAccounts(chain: seq<FolderTarget>) {
    forall i, j :: 0 <= i < j < |chain| ==> chain[i].account != chain[j].account
  }

  /** The chain grew by relations of the primary that are new in the store. */
  ghost predicate Extended(chain0: seq<FolderTarget>, chain: seq<FolderTarget>, targets0: seq<TargetInfo>, targets: seq<TargetInfo>) {
    && |chain0| <= |chain| && chain[..|chain0|] == chain0
    && |targets0| <= |targets| && targets[..|targets0|] == targets0
    && forall i :: |chain0| <= i < |chain| ==> chain0 != [] && chain[i].overflowOf == chain0[0].id && NewIn(targets0, chain[i].id)
  }

  ghost predicate NewIn(targets0: seq<TargetInfo>, id: RelId) {
    id >= 1 && forall i :: 0 <= i < |targets0| ==> targets0[i].target.id < id
  }

  lemma AppendAccount(chain: seq<FolderTarget>, t: FolderTarget)
    ensures AccountsOf(chain + [t]) == AccountsOf(chain) + {t.account}
    ensures DistinctAccounts(chain) && t.account !in AccountsOf(chain) ==> DistinctAccounts(chain + [t])
  {
    var c := chain + [t];
    forall i | 0 <= i < |c| ensures c[i].account in AccountsOf(chain) + {t.account} {
      if i < |chain| { assert c[i] == chain[i]; }
    }
    forall a | a in AccountsOf(chain) + {t.account} ensures a in AccountsOf(c) {
      if a in AccountsOf(chain) {
        var i :| 0 <= i < |chain| && chain[i].account == a;
        assert c[i].account == a;
      } else {
        assert c[|chain|].account == a;
      }
    }
  }

  lemma SmallerRest(all: set<Account>, used: set<Account>, a: Account)
    requires a in all && a !in used
    ensures |all - (used + {a})| < |all - used|
  {
    assert all - (used + {a}) == all - used - {a};
  }

  lemma NoneShift(b: Books, c: Books, w: Window, size: int)
    requires Shifted(b, c, w, None, size)
    ensures Shifted(b, c, w, None, 0)
  {
    forall a ensures ShiftedAt(b, c, w, None, 0, a) { assert ShiftedAt(b, c, w, None, size, a); }
  }
}
