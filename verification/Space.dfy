/** core/sync/space.go: per-account storage accounting with a hard reserve. */
module Space {
  import opened SyncTypes

  /** The free-space threshold as a fraction; the reserve is its share of the limit, rounded down. */
  datatype Threshold = Threshold(num: int, den: int)

  const DEFAULT_THRESHOLD := Threshold(20, 100)

  /** A threshold of zero or less means the default. */
  function Effective(t: Threshold): Threshold { if t.num <= 0 then DEFAULT_THRESHOLD else t }

  function Reserve(limit: int, t: Threshold): int
    requires t.den > 0
  {
    limit * t.num / t.den
  }

  /** What an account's quota source answers right now. */
  datatype Answer = Down | Quota(limit: int, usage: int)

  datatype Entry = Entry(limit: int, usage: int, fetched: Time)

  /** The manager's three maps. An account missing from pending or lastUsage counts as 0. */
  datatype Books = Books(cache: map<Account, Entry>, pending: map<Account, int>, lastUsage: map<Account, int>)

  function At0(m: map<Account, int>, a: Account): int { if a in m then m[a] else 0 }

  // ---- Quota ----

  datatype Info = Unread | Info(limit: int, usage: int) | Failed

  predicate Cached(b: Books, a: Account, now: Time, ttl: Time) {
    a in b.cache && now - b.cache[a].fetched < ttl
  }

  /** The pending estimate after a fresh usage figure: observed growth is taken off, never below zero. */
  function Decayed(pending: int, lastUsage: int, usage: int): int {
    var delta := usage - lastUsage;
    if delta <= 0 then pending else if pending - delta < 0 then 0 else pending - delta
  }

  function Fetch(b: Books, a: Account, limit: int, usage: int, now: Time): Books {
    Books(b.cache[a := Entry(limit, usage, now)],
          b.pending[a := Decayed(At0(b.pending, a), At0(b.lastUsage, a), usage)],
          b.lastUsage[a := usage])
  }

  /** Quota: served from the cache, unknown without a source, or fetched. */
  function QuotaInfo(b: Books, sources: map<Account, Answer>, a: Account, now: Time, ttl: Time): Info {
    if Cached(b, a, now, ttl) then Info(b.cache[a].limit, b.cache[a].usage)
    else if a !in sources then Unread
    else match sources[a] case Down => Failed case Quota(l, u) => Info(l, u)
  }

  function QuotaBooks(b: Books, sources: map<Account, Answer>, a: Account, now: Time, ttl: Time): Books {
    if Cached(b, a, now, ttl) || a !in sources || sources[a].Down? then b
    else Fetch(b, a, sources[a].limit, sources[a].usage, now)
  }

  /** Bytes still assignable above the reserve, after the quota was consulted. */
  function Available(b: Books, i: Info, a: Account, t: Threshold): int
    requires i.Info? && t.den > 0
  {
    i.limit - i.usage - At0(b.pending, a) - Reserve(i.limit, t)
  }

  /** TryReserve's decision: failures and unlimited accounts fail open. */
  predicate Fits(b: Books, i: Info, a: Account, size: int, t: Threshold)
    requires t.den > 0
  {
    match i
    case Failed => true
    case Unread => true
    case Info(limit, _) => limit <= 0 || size <= Available(b, i, a, t)
  }

  /** Only an accepted assignment to an account with a known limit is recorded. */
  predicate Gated(i: Info) { i.Info? && i.limit > 0 }

  function ReserveBooks(b: Books, i: Info, a: Account, size: int, t: Threshold): Books
    requires t.den > 0
  {
    if Gated(i) && Fits(b, i, a, size, t) then b.(pending := b.pending[a := At0(b.pending, a) + size]) else b
  }

  function ConsumeBooks(b: Books, a: Account, size: int): Books {
    if size <= 0 then b else b.(pending := b.pending[a := At0(b.pending, a) + size])
  }

  /** HasSpace: the free fraction, clamped at 0, is at least the threshold. */
  predicate Roomy(i: Info, t: Threshold)
    requires t.den > 0
  {
    match i
    case Failed => true
    case Unread => t.num <= t.den
    case Info(limit, usage) =>
      if limit <= 0 then t.num <= t.den
      else if limit - usage < 0 then false
      else (limit - usage) * t.den >= t.num * limit
  }

  class SpaceManager {
    const threshold: Threshold
    const ttl: Time
    var sources: map<Account, Answer>  // what each authenticated account's quota API would answer
    var accounts: seq<Account>         // the accounts table, in the order they were added
    var clock: Time
    var cache: map<Account, Entry>
    var pending: map<Account, int>
    var lastUsage: map<Account, int>

    constructor (t: Threshold, ttl: Time, s: map<Account, Answer>, order: seq<Account>, now: Time)
      requires t.den > 0
      ensures threshold == (if t.num <= 0 then Threshold(20, 100) else t) && Valid()
      ensures this.ttl == (if ttl <= 0 then 300 * 1_000_000_000 else ttl)
      ensures sources == s && accounts == order && Current() == Books(map[], map[], map[])
    {
      threshold := Effective(t);
      this.ttl := if ttl <= 0 then 300 * SECOND else ttl;
      sources, accounts, clock := s, order, now;
      cache, pending, lastUsage := map[], map[], map[];
    }

    ghost predicate Valid()
      reads this
    {
      threshold.den > 0 && threshold.num > 0
    }

    function Current(): Books
      reads this
    {
      Books(cache, pending, lastUsage)
    }

    /** time.Now */
    method Tick() returns (now: Time)
      modifies this`clock
      ensures now == clock >= old(clock)
    {
      now :| now >= clock;
      clock := now;
    }

    method Quota(a: Account) returns (i: Info)
      modifies this`clock, this`cache, this`pending, this`lastUsage
      ensures clock >= old(clock)
      ensures i == QuotaInfo(old(Current()), sources, a, clock, ttl)
      ensures Current() == QuotaBooks(old(Current()), sources, a, clock, ttl)
    {
      var now := Tick();
      if a in cache && now - cache[a].fetched < ttl {
        return Info(cache[a].limit, cache[a].usage);
      }
      if a !in sources { return Unread; }
      if sources[a].Down? { return Failed; }
      var limit, usage := sources[a].limit, sources[a].usage;
      cache := cache[a := Entry(limit, usage, now)];
      var p := if a in pending then pending[a] else 0;
      var delta := usage - (if a in lastUsage then lastUsage[a] else 0);
      if delta > 0 {
        p := p - delta;
        if p < 0 { p := 0; }
      }
      pending, lastUsage := pending[a := p], lastUsage[a := usage];
      return Info(limit, usage);
    }

    method HasSpace(a: Account) returns (ok: bool)
      requires Valid()
      modifies this`clock, this`cache, this`pending, this`lastUsage
      ensures clock >= old(clock)
      ensures ok == Roomy(QuotaInfo(old(Current()), sources, a, clock, ttl), threshold)
      ensures Current() == QuotaBooks(old(Current()), sources, a, clock, ttl)
    {
      var i := Quota(a);
      if i.Failed? { return true; }
      if i.Unread? || i.limit <= 0 { return threshold.den >= threshold.num; }
      var free := i.limit - i.usage;
      if free < 0 { return false; }
      return free * threshold.den >= threshold.num * i.limit;
    }

    method TryReserve(a: Account, size: int) returns (ok: bool)
      requires Valid()
      modifies this`clock, this`cache, this`pending, this`lastUsage
      ensures clock >= old(clock)
      ensures var i, b := QuotaInfo(old(Current()), sources, a, clock, ttl), QuotaBooks(old(Current()), sources, a, clock, ttl);
        ok == Fits(b, i, a, size, threshold) && Current() == ReserveBooks(b, i, a, size, threshold)
    {
      var i := Quota(a);
      if !i.Info? || i.limit <= 0 { return true; }
      var reserve := i.limit * threshold.num / threshold.den;
      var p := if a in pending then pending[a] else 0;
      var avail := i.limit - i.usage - p - reserve;
      if size > avail { return false; }
      pending := pending[a := p + size];
      return true;
    }

    method Consume(a: Account, size: int)
      modifies this`pending
      ensures Current() == ConsumeBooks(old(Current()), a, size)
    {
      if size <= 0 { return; }
      pending := pending[a := (if a in pending then pending[a] else 0) + size];
    }
  }

  // ---- runs ----

  /** One account over time: the manager's books, what the account really holds, and every byte
      the daemon was given leave to send, split into those still under way and those that
      arrived since the last quota read. loose are the bytes that were accepted without being
      recorded, or forgotten by the first quota read, since a read last found nothing under way. */
  datatype Ledger = Ledger(b: Books, limit: int, usage: int, open: int, done: int, loose: int)

  /** Whether the account's quota can be asked for: its API answers, fails, or there is no client. */
  datatype Line = Online | Offline | Unlinked

  datatype Move =
    | Read(now: Time, line: Line)             // a Quota call, answered from the cache, fresh or not at all
    | Try(size: int, now: Time, line: Line)   // TryReserve
    | Use(size: int)                          // Consume
    | Arrive(n: int)                          // an upload's bytes reach the account
    | Abort(n: int)                           // an upload fails
    | Free(n: int)                            // space is freed, inside or outside SyncDrive
    | Resize(limit: int)                      // the plan changes
    | Elsewhere(b: Books)                     // anything the manager does for other accounts

  function Source(l: Ledger, a: Account, line: Line): map<Account, Answer> {
    match line
    case Online => map[a := Quota(l.limit, l.usage)]
    case Offline => map[a := Down]
    case Unlinked => map[]
  }

  predicate WasRead(l: Ledger, a: Account) { a in l.b.cache }

  ghost predicate AgreeAt(b: Books, c: Books, a: Account) {
    && (a in b.cache <==> a in c.cache) && (a in b.cache ==> b.cache[a] == c.cache[a])
    && At0(b.pending, a) == At0(c.pending, a) && At0(b.lastUsage, a) == At0(c.lastUsage, a)
  }

  /** Usage grows only by bytes first reserved or consumed; Bookings says which uploads keep to that. */
  ghost predicate Fair(l: Ledger, a: Account, m: Move) {
    match m
    case Try(size, _, _) => size >= 0
    case Arrive(n) => 0 <= n <= l.open
    case Abort(n) => 0 <= n <= l.open
    case Free(n) => n >= 0
    case Elsewhere(b) => AgreeAt(l.b, b, a)
    case _ => true
  }

  /** The quota an answer to the daemon rests on. */
  function Told(l: Ledger, a: Account, now: Time, line: Line, ttl: Time): Info {
    QuotaInfo(l.b, Source(l, a, line), a, now, ttl)
  }

  function Consulted(l: Ledger, a: Account, now: Time, line: Line, ttl: Time): Ledger {
    var b := QuotaBooks(l.b, Source(l, a, line), a, now, ttl);
    if Cached(l.b, a, now, ttl) || !line.Online? then l.(b := b)
    else l.(b := b, done := 0, loose := if l.open == 0 then 0 else l.loose + Forgotten(l, a, now, line, ttl))
  }

  /** What the account's first quota read takes off the pending estimate. */
  function Forgotten(l: Ledger, a: Account, now: Time, line: Line, ttl: Time): int {
    if WasRead(l, a) then 0
    else At0(l.b.pending, a) - At0(QuotaBooks(l.b, Source(l, a, line), a, now, ttl).pending, a)
  }

  /** TryReserve answers true, for whatever reason. */
  function Accepted(l: Ledger, a: Account, size: int, now: Time, line: Line, ttl: Time, t: Threshold): bool
    requires t.den > 0
  {
    Fits(Consulted(l, a, now, line, ttl).b, Told(l, a, now, line, ttl), a, size, t)
  }

  /** It answers true without having looked at a limit: the quota could not be read or has none. */
  function WavedThrough(l: Ledger, a: Account, now: Time, line: Line, ttl: Time): bool {
    !Gated(Told(l, a, now, line, ttl))
  }

  function Moved(l: Ledger, a: Account, m: Move, ttl: Time, t: Threshold): Ledger
    requires t.den > 0
  {
    match m
    case Read(now, line) => Consulted(l, a, now, line, ttl)
    case Try(size, now, line) =>
      var c := Consulted(l, a, now, line, ttl);
      c.(b := ReserveBooks(c.b, Told(l, a, now, line, ttl), a, size, t),
         open := c.open + if Accepted(l, a, size, now, line, ttl, t) then size else 0,
         loose := c.loose + if WavedThrough(l, a, now, line, ttl) then size else 0)
    case Use(size) => l.(b := ConsumeBooks(l.b, a, size), open := l.open + if size > 0 then size else 0)
    case Arrive(n) => l.(open := l.open - n, usage := l.usage + n, done := l.done + n)
    case Abort(n) => l.(open := l.open - n)
    case Free(n) => l.(usage := l.usage - n)
    case Resize(limit) => l.(limit := limit)
    case Elsewhere(b) => l.(b := b)
  }

  /** The accounting holds its own: nothing is negative, and real usage has grown since the last
      read by no more than what arrived. */
  ghost predicate Sane(l: Ledger, a: Account) {
    && 0 <= l.open && 0 <= l.done && 0 <= l.loose && 0 <= At0(l.b.pending, a)
    && (WasRead(l, a) ==> At0(l.b.lastUsage, a) == l.b.cache[a].usage && l.usage <= l.b.cache[a].usage + l.done)
  }

  /** The bytes under way or unread that pending does not cover; negative when it covers more. */
  function Gap(l: Ledger, a: Account): int { l.open + l.done - At0(l.b.pending, a) }

  /** Pending covers every byte under way or unread, but for the loose ones. */
  ghost predicate Covered(l: Ledger, a: Account) {
    Sane(l, a) && Gap(l, a) <= l.loose
  }

  lemma ConsultKeepsCover(l: Ledger, a: Account, now: Time, line: Line, ttl: Time)
    requires Covered(l, a)
    ensures Covered(Consulted(l, a, now, line, ttl), a)
    ensures Gap(l, a) <= 0 ==>
              (Gap(Consulted(l, a, now, line, ttl), a) <= 0 <==> Forgotten(l, a, now, line, ttl) <= l.done - Gap(l, a))
    ensures Gated(Told(l, a, now, line, ttl)) ==>
              var c := Consulted(l, a, now, line, ttl);
              WasRead(c, a) && Told(l, a, now, line, ttl) == Info(c.b.cache[a].limit, c.b.cache[a].usage)
  {
  }

  lemma MoveKeepsCover(l: Ledger, a: Account, m: Move, ttl: Time, t: Threshold)
    requires t.den > 0 && Covered(l, a) && Fair(l, a, m)
    ensures Covered(Moved(l, a, m, ttl, t), a)
  {
    if m.Read? || m.Try? { ConsultKeepsCover(l, a, m.now, m.line, ttl); }
  }

  /** From full cover, cover survives a move exactly unless the move is the account's first quota read
      and forgets more than pending covers too much, or a reservation that was waved through and
      is larger than that. */
  lemma CoverSurvivesExactlyWhen(l: Ledger, a: Account, m: Move, ttl: Time, t: Threshold)
    requires t.den > 0 && Covered(l, a) && Fair(l, a, m) && Gap(l, a) <= 0
    ensures Gap(Moved(l, a, m, ttl, t), a) <= 0 <==>
            && (m.Read? || m.Try? ==> Forgotten(l, a, m.now, m.line, ttl) <= l.done - Gap(l, a))
            && !(m.Try? && WavedThrough(l, a, m.now, m.line, ttl) && m.size > -Gap(Consulted(l, a, m.now, m.line, ttl), a))
  {
    if m.Read? || m.Try? { ConsultKeepsCover(l, a, m.now, m.line, ttl); }
  }

  /** The reserve, for every byte: an accepted reservation on a limited quota that was read leaves real
      usage plus all bytes under way at or below the limit minus the reserve, plus the loose bytes. */
  lemma GrantIsSafe(l: Ledger, a: Account, size: int, now: Time, line: Line, ttl: Time, t: Threshold)
    requires t.den > 0 && Covered(l, a)
    requires Accepted(l, a, size, now, line, ttl, t) && !WavedThrough(l, a, now, line, ttl)
    ensures var after := Moved(l, a, Try(size, now, line), ttl, t);
      && a in after.b.cache
      && after.usage + after.open <= after.b.cache[a].limit - Reserve(after.b.cache[a].limit, t) + after.loose
      && after.open == l.open + size
  {
    ConsultKeepsCover(l, a, now, line, ttl);
  }

  /** Exactly when the next reservations respect the reserve: with the last reading still true, every
      size that is accepted does if and only if none is accepted or pending covers every byte. */
  lemma ReserveHoldsExactlyWhen(l: Ledger, a: Account, now: Time, line: Line, ttl: Time, t: Threshold)
    requires t.den > 0 && Covered(l, a)
    requires Gated(Told(l, a, now, line, ttl))
    requires var c := Consulted(l, a, now, line, ttl); c.usage == c.b.cache[a].usage + c.done
    ensures var c := Consulted(l, a, now, line, ttl);
      var floor := c.b.cache[a].limit - Reserve(c.b.cache[a].limit, t);
      (forall size :: size >= 0 && Accepted(l, a, size, now, line, ttl, t) ==> c.usage + c.open + size <= floor)
      <==> !Accepted(l, a, 0, now, line, ttl, t) || Gap(c, a) <= 0
  {
    ConsultKeepsCover(l, a, now, line, ttl);
    var c := Consulted(l, a, now, line, ttl);
    var most := Available(c.b, Told(l, a, now, line, ttl), a, t);
    assert Accepted(l, a, most, now, line, ttl, t);
    assert Accepted(l, a, 0, now, line, ttl, t) <==> most >= 0;
    if most >= 0 && Gap(c, a) > 0 {
      assert c.usage + c.open + most > c.b.cache[a].limit - Reserve(c.b.cache[a].limit, t);
    }
  }

  ghost predicate FairRun(l: Ledger, a: Account, moves: seq<Move>, ttl: Time, t: Threshold)
    requires t.den > 0
    decreases |moves|
  {
    moves == [] || (Fair(l, a, moves[0]) && FairRun(Moved(l, a, moves[0], ttl, t), a, moves[1..], ttl, t))
  }

  function RunMoves(l: Ledger, a: Account, moves: seq<Move>, ttl: Time, t: Threshold): Ledger
    requires t.den > 0
    decreases |moves|
  {
    if moves == [] then l else RunMoves(Moved(l, a, moves[0], ttl, t), a, moves[1..], ttl, t)
  }

  /** No reservation of the run was waved through, and no first read found anything pending. */
  ghost predicate AllGated(l: Ledger, a: Account, moves: seq<Move>, ttl: Time, t: Threshold)
    requires t.den > 0
    decreases |moves|
  {
    moves == [] || (
      && (moves[0].Try? ==> !WavedThrough(l, a, moves[0].now, moves[0].line, ttl))
      && (moves[0].Try? || moves[0].Read? ==> WasRead(l, a) || At0(l.b.pending, a) == 0)
      && AllGated(Moved(l, a, moves[0], ttl, t), a, moves[1..], ttl, t))
  }

  lemma {:induction false} RunKeepsCover(l: Ledger, a: Account, moves: seq<Move>, ttl: Time, t: Threshold)
    requires t.den > 0 && Covered(l, a) && FairRun(l, a, moves, ttl, t)
    ensures Covered(RunMoves(l, a, moves, ttl, t), a)
    ensures AllGated(l, a, moves, ttl, t) ==> RunMoves(l, a, moves, ttl, t).loose <= l.loose
    decreases |moves|
  {
    if moves != [] {
      MoveKeepsCover(l, a, moves[0], ttl, t);
      RunKeepsCover(Moved(l, a, moves[0], ttl, t), a, moves[1..], ttl, t);
    }
  }

  lemma {:induction false} GatedPrefix(l: Ledger, a: Account, moves: seq<Move>, m: Move, ttl: Time, t: Threshold)
    requires t.den > 0
    ensures AllGated(l, a, moves + [m], ttl, t) ==> AllGated(l, a, moves, ttl, t) && AllGated(RunMoves(l, a, moves, ttl, t), a, [m], ttl, t)
    decreases |moves|
  {
    if moves == [] {
      assert moves + [m] == [m];
    } else {
      assert (moves + [m])[1..] == moves[1..] + [m];
      GatedPrefix(Moved(l, a, moves[0], ttl, t), a, moves[1..], m, ttl, t);
    }
  }

  /** A daemon that has just started: empty books, nothing under way. */
  function Started(limit: int, usage: int): Ledger { Ledger(Books(map[], map[], map[]), limit, usage, 0, 0, 0) }

  /** Reserve safety over runs, for every byte of every accepted reservation. However reservations,
      growth of owned files, finished and failed uploads, freed space, plan changes, outages and
      quota reads interleave, an accepted reservation on a limited quota that was read overruns
      the reserve by at most the loose bytes; in a run in which no reservation was waved through
      and the first read found nothing pending it never does. */
  lemma ReserveHoldsOverRuns(limit: int, usage: int, a: Account, moves: seq<Move>, size: int, now: Time, line: Line,
                             ttl: Time, t: Threshold)
    requires t.den > 0 && FairRun(Started(limit, usage), a, moves, ttl, t)
    requires var l := RunMoves(Started(limit, usage), a, moves, ttl, t);
      Fair(l, a, Try(size, now, line)) && Accepted(l, a, size, now, line, ttl, t) && !WavedThrough(l, a, now, line, ttl)
    ensures var after := Moved(RunMoves(Started(limit, usage), a, moves, ttl, t), a, Try(size, now, line), ttl, t);
      && a in after.b.cache
      && after.usage + after.open <= after.b.cache[a].limit - Reserve(after.b.cache[a].limit, t) + after.loose
      && (AllGated(Started(limit, usage), a, moves + [Try(size, now, line)], ttl, t) ==> after.loose == 0)
  {
    GatedPrefix(Started(limit, usage), a, moves, Try(size, now, line), ttl, t);
    var l0 := Started(limit, usage);
    RunKeepsCover(l0, a, moves, ttl, t);
    MoveKeepsCover(RunMoves(l0, a, moves, ttl, t), a, Try(size, now, line), ttl, t);
    GrantIsSafe(RunMoves(l0, a, moves, ttl, t), a, size, now, line, ttl, t);
  }

  /** The bytes that enter an account with a move, gated or not. */
  ghost function Entering(l: Ledger, a: Account, m: Move, ttl: Time, t: Threshold): int
    requires t.den > 0
  {
    if m.Try? && Accepted(l, a, m.size, m.now, m.line, ttl, t) then m.size
    else if m.Use? && m.size >= 1 then m.size
    else 0
  }

  ghost function Entered(l: Ledger, a: Account, moves: seq<Move>, ttl: Time, t: Threshold): int
    requires t.den > 0
    decreases |moves|
  {
    if moves == [] then 0
    else Entering(l, a, moves[0], ttl, t) + Entered(Moved(l, a, moves[0], ttl, t), a, moves[1..], ttl, t)
  }

  ghost function Gone(moves: seq<Move>): int {
    if moves == [] then 0
    else (if moves[0].Abort? || moves[0].Free? then moves[0].n else 0) + Gone(moves[1..])
  }

  /** No byte is forgotten: over any run, what is stored and what is under way are what was stored and under way
      before, with every accepted reservation and every growth, less what failed or was freed. */
  lemma {:induction false} BytesAreConserved(l: Ledger, a: Account, moves: seq<Move>, ttl: Time, t: Threshold)
    requires t.den > 0
    ensures var r := RunMoves(l, a, moves, ttl, t);
      r.usage + r.open == l.usage + l.open + Entered(l, a, moves, ttl, t) - Gone(moves)
    decreases |moves|
  {
    if moves != [] { BytesAreConserved(Moved(l, a, moves[0], ttl, t), a, moves[1..], ttl, t); }
  }

  // ---- where the accounting does not hold ----

  /** The bound is met, for every number of loose bytes: after one reservation of n bytes during an
      outage, the largest reservation the next reading accepts overruns the reserve by all n. */
  lemma OutageOverrunsByAll(limit: int, usage: int, n: int, a: Account, ttl: Time, t: Threshold)
    requires t.den > 0 && limit > 0 && n > 0
    requires var size := limit - usage - Reserve(limit, t); size >= 0
    ensures var size := limit - usage - Reserve(limit, t);
      var l := Moved(Started(limit, usage), a, Try(n, 0, Offline), ttl, t);
      var after := Moved(l, a, Try(size, 1, Online), ttl, t);
      && Fair(Started(limit, usage), a, Try(n, 0, Offline)) && Accepted(Started(limit, usage), a, n, 0, Offline, ttl, t)
      && Fair(l, a, Try(size, 1, Online)) && Accepted(l, a, size, 1, Online, ttl, t) && !WavedThrough(l, a, 1, Online, ttl)
      && after.usage + after.open == limit - Reserve(limit, t) + n
  {
  }

  /** The same after a reading without a limit: 1000 bytes go to an account whose plan then allows
      1000 in all; 700 more are accepted, against a floor of 800. */
  lemma UnlimitedReadingOverruns()
    ensures var t, ttl := DEFAULT_THRESHOLD, 3 * SECOND;
      var l := Moved(Moved(Started(0, 0), "a", Try(1000, 0, Online), ttl, t), "a", Resize(1000), ttl, t);
      var after := Moved(l, "a", Try(700, 5 * SECOND, Online), ttl, t);
      && Accepted(Started(0, 0), "a", 1000, 0, Online, ttl, t) && Accepted(l, "a", 700, 5 * SECOND, Online, ttl, t)
      && !WavedThrough(l, "a", 5 * SECOND, Online, ttl)
      && after.open == 1700 && after.loose == 1000 && 1000 - Reserve(1000, t) == 800
  {
  }

  /** Having been read does not settle loose bytes while others are under way: their arrival is taken off
      an estimate they were never part of. 300 bytes went through in an outage, 400 were
      recorded; the 300 arrive and are read, and 300 more are accepted against a floor of 800. */
  lemma ReadIsNotEnough()
    ensures var t, ttl := DEFAULT_THRESHOLD, SECOND;
      var l1 := Moved(Started(1000, 0), "a", Try(300, 0, Offline), ttl, t);
      var l2 := Moved(l1, "a", Try(400, 0, Online), ttl, t);
      var l3 := Moved(Moved(l2, "a", Arrive(300), ttl, t), "a", Read(2 * SECOND, Online), ttl, t);
      var after := Moved(l3, "a", Try(300, 2 * SECOND, Online), ttl, t);
      && l3.done == 0 && Gap(l3, "a") == 300
      && Accepted(l3, "a", 300, 2 * SECOND, Online, ttl, t) && after.usage + after.open == 1000
  {
  }

  /** A fresh reading with nothing under way settles everything. */
  lemma QuietReadSettles(l: Ledger, a: Account, now: Time, ttl: Time)
    requires Covered(l, a) && l.open == 0 && !Cached(l.b, a, now, ttl)
    ensures var c := Consulted(l, a, now, Online, ttl); Covered(c, a) && Gap(c, a) <= 0 && c.loose == 0
  {
    ConsultKeepsCover(l, a, now, Online, ttl);
  }

  /** The first quota read measures growth from zero, so it takes the whole usage figure off
      the pending estimate. The estimate survives it exactly when nothing was pending or the
      account is empty. */
  lemma FirstReadKeepsPendingExactlyWhen(b: Books, a: Account, limit: int, usage: nat, now: Time)
    requires a !in b.lastUsage
    ensures At0(Fetch(b, a, limit, usage, now).pending, a) == At0(b.pending, a) <==>
            At0(b.pending, a) == 0 || usage == 0
  {
  }

  /** Growth of an owned file recorded before the first read is forgotten by it, and the next
      reservation is accepted although the bytes under way leave no room for it. */
  lemma FirstReadForgetsConsumed()
    ensures var t := DEFAULT_THRESHOLD;
      var l := Moved(Moved(Started(1000, 700), "a", Use(100), SECOND, t), "a", Try(100, 0, Online), SECOND, t);
      l.open == 200 && l.usage + l.open > 1000 - Reserve(1000, t)
  {
  }

  // ---- the fraction test and the byte test ----

  /** An account that HasSpace rejects cannot take any non-empty file. */
  lemma LowTakesNothing(b: Books, i: Info, a: Account, size: int, t: Threshold)
    requires t.den > 0 && t.num > 0 && size > 0 && At0(b.pending, a) >= 0
    requires Gated(i) && !Roomy(i, t)
    ensures !Fits(b, i, a, size, t)
  {
    var free := i.limit - i.usage;
    assert free * t.den < t.num * i.limit by {
      if free < 0 {
        NegativeTimes(free, t.den);
        PositiveTimes(t.num, i.limit);
      }
    }
    FloorBelow(free, i.limit * t.num, t.den);
  }

  /** The edges of the tests: of 1000 bytes 200 free are enough for a fifth and 199 are not, a quota reading serves
      until just before its time to live is over, and a file that fills an account down to the reserve fits. */
  lemma Edges(fetched: Time, ttl: Time)
    requires ttl > 0
    ensures Roomy(Info(1000, 800), DEFAULT_THRESHOLD) && !Roomy(Info(1000, 801), DEFAULT_THRESHOLD)
    ensures var b := Books(map["a" := Entry(1000, 0, fetched)], map["a" := 300], map["a" := 0]);
      && Cached(b, "a", fetched + ttl - 1, ttl) && !Cached(b, "a", fetched + ttl, ttl)
      && Fits(b, Info(1000, 100), "a", 400, DEFAULT_THRESHOLD) && !Fits(b, Info(1000, 100), "a", 401, DEFAULT_THRESHOLD)
    ensures Roomy(Unread, DEFAULT_THRESHOLD) && Roomy(Failed, DEFAULT_THRESHOLD) && Roomy(Info(0, 900), DEFAULT_THRESHOLD)
  {
  }

  /** What a source answered is what every call until the time to live is over gets, whatever the source
      answers then; the first call after that asks again. */
  lemma ReadingServes(b: Books, sources: map<Account, Answer>, later: map<Account, Answer>, a: Account, now: Time, next: Time, ttl: Time)
    requires !Cached(b, a, now, ttl) && a in sources && sources[a].Quota? && now <= next && a in later && later[a].Quota?
    ensures var c := QuotaBooks(b, sources, a, now, ttl);
      && QuotaInfo(b, sources, a, now, ttl) == Info(sources[a].limit, sources[a].usage)
      && (next < now + ttl ==>
            QuotaInfo(c, later, a, next, ttl) == Info(sources[a].limit, sources[a].usage) && QuotaBooks(c, later, a, next, ttl) == c)
      && (next >= now + ttl ==> QuotaInfo(c, later, a, next, ttl) == Info(later[a].limit, later[a].usage))
  {
  }

  lemma NegativeTimes(x: int, y: int)
    requires x < 0 < y
    ensures x * y < 0
  {
  }

  lemma PositiveTimes(x: int, y: int)
    requires x > 0 && y > 0
    ensures x * y > 0
  {
  }

  lemma FloorBelow(x: int, y: int, d: int)
    requires d > 0 && x * d < y
    ensures x <= y / d
  {
    var q := y / d;
    assert y == q * d + y % d && 0 <= y % d < d;
    assert (q + 1) * d == q * d + d;
    TimesCancels(x, q + 1, d);
  }

  lemma TimesCancels(x: int, y: int, d: int)
    requires d > 0 && x * d < y * d
    ensures x < y
  {
    assert (y - x) * d > 0;
  }

  /** For an empty file the tests disagree: with 5 of 12 bytes free and a reserve of 5, the
      account is low by the fraction test, yet takes an empty file. */
  lemma EmptyFileFitsLowAccount()
    ensures var t, i, b := Threshold(45, 100), Info(12, 7), Books(map[], map[], map[]);
      !Roomy(i, t) && Fits(b, i, "a", 0, t)
  {
  }
}
