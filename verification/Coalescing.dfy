/** core/watcher/watcher.go:110-118: a burst of events for one path is coalesced into one. */
module Coalescing {
  import opened Triggers

  // ---- one pending timer per path ----

  /** Every timer that could still be stopped is the one its path's entry names. */
  ghost predicate OnePending(s: System) { forall t :: PendingIs(s, t) }

  ghost predicate PendingIs(s: System, t: int) {
    0 <= t < |s.timers| && s.timers[t].state == Armed ==> s.timers[t].path in s.pend && s.pend[s.timers[t].path] == t
  }

  /** A late flush: the path's entry names a newer timer, which it removes although that is still armed. */
  predicate LateFlush(s: System, step: Step) {
    && step.Flush? && step.t < |s.timers|
    && var p := s.timers[step.t].path;
       p in s.pend && s.pend[p] != step.t && s.pend[p] < |s.timers| && s.timers[s.pend[p]].state == Armed
  }

  /** Every step keeps one pending timer per path exactly unless it is a late flush. */
  lemma OnePendingExactlyUnless(roots: seq<AbsPath>, s: System, step: Step)
    requires Kept(roots, s) && OnePending(s) && CanStep(s, step)
    ensures OnePending(After(roots, s, step)) <==> !LateFlush(s, step)
  {
    var n := After(roots, s, step);
    if LateFlush(s, step) {
      var p := s.timers[step.t].path;
      assert n.timers[s.pend[p]] == s.timers[s.pend[p]] && !PendingIs(n, s.pend[p]);
    } else {
      forall t ensures PendingIs(n, t) { assert PendingIs(s, t); }
    }
  }

  /** A late flush happens: the first timer fires while a newer event re-arms the path, and its flush then makes
      the watcher forget the newer timer. The next event can no longer stop that one, and two
      events are sent. */
  lemma LateFlushLeavesTwo()
    ensures IsRun([ROOT], QUIET, [Handle(FILE), Fire(0), Handle(FILE), Flush(0), Handle(FILE)], Stage(5))
    ensures Live(Stage(5).timers, FILE) == 2 && LateFlush(Stage(3), Flush(0))
  {
    assert PlainlyInside(ROOT, FILE) && Reports([ROOT], FILE, 0);
    EmitsExactlyInside([ROOT], FILE);
    FirstStages();
    LastStages();
    RunOfOne([ROOT], Stage(4), Handle(FILE), Stage(5));
    RunStarts([ROOT], Stage(3), Flush(0), [Handle(FILE)], Stage(5));
    RunStarts([ROOT], Stage(2), Handle(FILE), [Flush(0), Handle(FILE)], Stage(5));
    RunStarts([ROOT], Stage(1), Fire(0), [Handle(FILE), Flush(0), Handle(FILE)], Stage(5));
    RunStarts([ROOT], QUIET, Handle(FILE), [Fire(0), Handle(FILE), Flush(0), Handle(FILE)], Stage(5));
    TwoTimers();
  }

  lemma TwoTimers()
    ensures Live(Stage(5).timers, FILE) == 2 && LateFlush(Stage(3), Flush(0))
  {
    LiveAppend([Timer(FILE, Spent), Timer(FILE, Armed)], Timer(FILE, Armed), FILE);
    LiveAppend([Timer(FILE, Spent)], Timer(FILE, Armed), FILE);
  }

  const ROOT: AbsPath := ["r"]
  const FILE: AbsPath := ["r", "a"]

  /** The states of that run. */
  function Stage(n: nat): System {
    match n
    case 1 => System([Timer(FILE, Armed)], map[FILE := 0], [], [], false, false, {FILE})
    case 2 => System([Timer(FILE, Fired)], map[FILE := 0], [], [], false, false, {FILE})
    case 3 => System([Timer(FILE, Fired), Timer(FILE, Armed)], map[FILE := 1], [], [], false, false, {FILE})
    case 4 => System([Timer(FILE, Spent), Timer(FILE, Armed)], map[], [FILE], [], false, false, {FILE})
    case 5 => System([Timer(FILE, Spent), Timer(FILE, Armed), Timer(FILE, Armed)], map[FILE := 2], [FILE], [], false, false, {FILE})
    case _ => QUIET
  }

  lemma FirstStages()
    requires Emits([ROOT], FILE)
    ensures After([ROOT], QUIET, Handle(FILE)) == Stage(1)
    ensures CanStep(Stage(1), Fire(0)) && After([ROOT], Stage(1), Fire(0)) == Stage(2)
    ensures After([ROOT], Stage(2), Handle(FILE)) == Stage(3)
  {
    assert StopTimer(Stage(2).timers, 0) == Stage(2).timers;
  }

  lemma LastStages()
    requires Emits([ROOT], FILE)
    ensures CanStep(Stage(3), Flush(0)) && After([ROOT], Stage(3), Flush(0)) == Stage(4)
    ensures After([ROOT], Stage(4), Handle(FILE)) == Stage(5)
  {
    assert Stage(3).pend - {FILE} == map[];
  }

  lemma RunOfOne(roots: seq<AbsPath>, s: System, step: Step, n: System)
    requires CanStep(s, step) && After(roots, s, step) == n
    ensures IsRun(roots, s, [step], n)
  {
    assert [step][1..] == [];
  }

  lemma RunStarts(roots: seq<AbsPath>, s: System, step: Step, rest: seq<Step>, n: System)
    requires CanStep(s, step) && IsRun(roots, After(roots, s, step), rest, n)
    ensures IsRun(roots, s, [step] + rest, n)
  {
    assert ([step] + rest)[0] == step && ([step] + rest)[1..] == rest;
  }

  // ---- bursts ----

  /** How many timers of the path are armed or waiting for the lock. */
  function Live(timers: seq<Timer>, p: AbsPath): nat {
    if timers == [] then 0 else (if timers[0].path == p && timers[0].state != Spent then 1 else 0) + Live(timers[1..], p)
  }

  lemma {:induction false} LiveUpdate(timers: seq<Timer>, i: nat, t: Timer, p: AbsPath)
    requires i < |timers| && t.path == timers[i].path
    ensures Live(timers[i := t], p) + (if t.path == p && timers[i].state != Spent then 1 else 0) ==
            Live(timers, p) + if t.path == p && t.state != Spent then 1 else 0
  {
    if i == 0 {
      assert timers[0 := t][1..] == timers[1..];
    } else {
      assert timers[i := t][1..] == timers[1..][i - 1 := t];
      LiveUpdate(timers[1..], i - 1, t, p);
    }
  }

  lemma {:induction false} LiveAppend(timers: seq<Timer>, t: Timer, p: AbsPath)
    ensures Live(timers + [t], p) == Live(timers, p) + if t.path == p && t.state != Spent then 1 else 0
  {
    if timers == [] {
      assert [t][1..] == [];
    } else {
      assert (timers + [t])[1..] == timers[1..] + [t];
      LiveAppend(timers[1..], t, p);
    }
  }

  lemma {:induction false} LiveIsPositive(timers: seq<Timer>, t: nat)
    requires t < |timers| && timers[t].state != Spent
    ensures Live(timers, timers[t].path) > 0
  {
    if t > 0 { LiveIsPositive(timers[1..], t - 1); }
  }

  /** Nothing is on its way for the path, or exactly one timer that its entry names. */
  ghost predicate AtMostOne(s: System, p: AbsPath, one: bool) {
    && (forall q :: q in s.pend ==> s.pend[q] < |s.timers| && s.timers[s.pend[q]].path == q)
    && p !in s.sending
    && if one then Live(s.timers, p) == 1 && p in s.pend && s.timers[s.pend[p]] == Timer(p, Armed)
       else Live(s.timers, p) == 0
  }

  /** Fire is not the firing of one of the path's timers. */
  predicate SparesTimer(s: System, step: Step, p: AbsPath) {
    step.Fire? && step.t < |s.timers| ==> s.timers[step.t].path != p
  }

  lemma BurstHandle(roots: seq<AbsPath>, s: System, q: AbsPath, p: AbsPath, one: bool)
    requires AtMostOne(s, p, one)
    ensures AtMostOne(After(roots, s, Handle(q)), p, one || q == p)
  {
    var stopped := if q in s.pend then StopTimer(s.timers, s.pend[q]) else s.timers;
    StoppedLive(s, q, p, one);
    LiveAppend(stopped, Timer(q, Armed), p);
  }

  /** Stopping the pending timer of a path takes the one live timer off, and none of another path. */
  lemma StoppedLive(s: System, q: AbsPath, p: AbsPath, one: bool)
    requires AtMostOne(s, p, one)
    ensures var stopped := if q in s.pend then StopTimer(s.timers, s.pend[q]) else s.timers;
      && |stopped| == |s.timers| && (forall t :: 0 <= t < |stopped| ==> stopped[t].path == s.timers[t].path)
      && Live(stopped, p) == (if one && q != p then 1 else 0)
      && (q != p && p in s.pend ==> stopped[s.pend[p]] == s.timers[s.pend[p]])
  {
    if q in s.pend && s.timers[s.pend[q]].state == Armed { LiveUpdate(s.timers, s.pend[q], Timer(q, Spent), p); }
  }

  lemma BurstFire(roots: seq<AbsPath>, s: System, t: nat, p: AbsPath, one: bool)
    requires AtMostOne(s, p, one) && CanStep(s, Fire(t)) && s.timers[t].path != p
    ensures AtMostOne(After(roots, s, Fire(t)), p, one)
  {
    LiveUpdate(s.timers, t, s.timers[t].(state := Fired), p);
  }

  lemma BurstSend(roots: seq<AbsPath>, s: System, i: nat, p: AbsPath, one: bool)
    requires AtMostOne(s, p, one) && CanStep(s, Send(i))
    ensures AtMostOne(After(roots, s, Send(i)), p, one)
  {
  }

  lemma BurstStep(roots: seq<AbsPath>, s: System, step: Step, p: AbsPath, one: bool)
    requires AtMostOne(s, p, one) && CanStep(s, step) && SparesTimer(s, step, p)
    ensures AtMostOne(After(roots, s, step), p, one || step == Handle(p))
  {
    match step {
      case Handle(q) => BurstHandle(roots, s, q, p, one);
      case Fire(t) => BurstFire(roots, s, t, p, one);
      case Flush(t) => BurstFlush(roots, s, t, p, one);
      case Send(i) => BurstSend(roots, s, i, p, one);
      case _ =>
    }
  }

  lemma BurstFlush(roots: seq<AbsPath>, s: System, t: nat, p: AbsPath, one: bool)
    requires AtMostOne(s, p, one) && CanStep(s, Flush(t))
    ensures AtMostOne(After(roots, s, Flush(t)), p, one)
  {
    LiveUpdate(s.timers, t, s.timers[t].(state := Spent), p);
    if s.timers[t].path == p {
      LiveIsPositive(s.timers, t);
      if s.pend[p] < t { TwoLive(s.timers, s.pend[p], t, p); }
      if t < s.pend[p] { TwoLive(s.timers, t, s.pend[p], p); }
    }
  }

  /** Two different live timers of a path count twice. */
  lemma {:induction false} TwoLive(timers: seq<Timer>, i: nat, j: nat, p: AbsPath)
    requires i < j < |timers| && timers[i].path == p && timers[j].path == p
    requires timers[i].state != Spent && timers[j].state != Spent
    ensures Live(timers, p) >= 2
  {
    if i > 0 { TwoLive(timers[1..], i - 1, j - 1, p); } else { LiveIsPositive(timers[1..], j - 1); }
  }

  /** The run never fires one of the path's timers. */
  ghost predicate Unfired(roots: seq<AbsPath>, s: System, steps: seq<Step>, n: System, p: AbsPath)
    requires IsRun(roots, s, steps, n)
    decreases |steps|
  {
    steps == [] || (SparesTimer(s, steps[0], p) && Unfired(roots, After(roots, s, steps[0]), steps[1..], n, p))
  }

  /** However many events of the path come, whatever else happens between them: as long as none of its timers fires,
      at most one is on its way, the last one's. */
  lemma {:induction false} BurstLeavesOne(roots: seq<AbsPath>, s: System, steps: seq<Step>, n: System, p: AbsPath, one: bool)
    requires IsRun(roots, s, steps, n) && AtMostOne(s, p, one) && Unfired(roots, s, steps, n, p)
    ensures AtMostOne(n, p, one || Handle(p) in steps)
    decreases |steps|
  {
    if steps != [] {
      BurstStep(roots, s, steps[0], p, one);
      BurstLeavesOne(roots, After(roots, s, steps[0]), steps[1..], n, p, one || steps[0] == Handle(p));
      assert Handle(p) in steps <==> steps[0] == Handle(p) || Handle(p) in steps[1..];
    }
  }

  // ---- what is sent ----

  /** Events for the path that the system has still to send. */
  function Unsent(s: System, p: AbsPath): nat { Live(s.timers, p) + multiset(s.sending)[p] }

  /** How often a run puts an event for the path into the channel. */
  ghost function Sends(roots: seq<AbsPath>, s: System, steps: seq<Step>, n: System, p: AbsPath): nat
    requires IsRun(roots, s, steps, n)
    decreases |steps|
  {
    if steps == [] then 0
    else (if steps[0].Send? && s.sending[steps[0].i] == p then 1 else 0)
         + Sends(roots, After(roots, s, steps[0]), steps[1..], n, p)
  }

  lemma OneSent(sending: seq<AbsPath>, i: nat, p: AbsPath)
    requires i < |sending|
    ensures multiset(sending[..i] + sending[i + 1..])[p] + (if sending[i] == p then 1 else 0) == multiset(sending)[p]
  {
    assert sending == sending[..i] + [sending[i]] + sending[i + 1..];
  }

  lemma SendStep(roots: seq<AbsPath>, s: System, step: Step, p: AbsPath)
    requires CanStep(s, step) && Internal(step) && Emits(roots, p)
    ensures Unsent(After(roots, s, step), p) + (if step.Send? && s.sending[step.i] == p then 1 else 0) == Unsent(s, p)
  {
    match step {
      case Fire(t) => FireStep(roots, s, t, p);
      case Flush(t) => FlushStep(roots, s, t, p);
      case Send(i) => SendOne(roots, s, i, p);
      case _ =>
    }
  }

  lemma SendOne(roots: seq<AbsPath>, s: System, i: nat, p: AbsPath)
    requires CanStep(s, Send(i))
    ensures Unsent(After(roots, s, Send(i)), p) + (if s.sending[i] == p then 1 else 0) == Unsent(s, p)
  {
    OneSent(s.sending, i, p);
    assert After(roots, s, Send(i)).timers == s.timers;
  }

  lemma FireStep(roots: seq<AbsPath>, s: System, t: nat, p: AbsPath)
    requires CanStep(s, Fire(t))
    ensures Unsent(After(roots, s, Fire(t)), p) == Unsent(s, p)
  {
    LiveUpdate(s.timers, t, s.timers[t].(state := Fired), p);
  }

  lemma FlushStep(roots: seq<AbsPath>, s: System, t: nat, p: AbsPath)
    requires CanStep(s, Flush(t)) && Emits(roots, p)
    ensures Unsent(After(roots, s, Flush(t)), p) == Unsent(s, p)
  {
    LiveUpdate(s.timers, t, s.timers[t].(state := Spent), p);
    assert multiset(s.sending + [s.timers[t].path]) == multiset(s.sending) + multiset{s.timers[t].path};
  }

  lemma {:induction false} SendsWhatWasUnsent(roots: seq<AbsPath>, s: System, steps: seq<Step>, n: System, p: AbsPath)
    requires IsRun(roots, s, steps, n) && (forall i :: 0 <= i < |steps| ==> Internal(steps[i])) && Emits(roots, p)
    ensures Sends(roots, s, steps, n, p) + Unsent(n, p) == Unsent(s, p)
    decreases |steps|
  {
    if steps != [] {
      SendStep(roots, s, steps[0], p);
      SendsWhatWasUnsent(roots, After(roots, s, steps[0]), steps[1..], n, p);
    }
  }

  lemma {:induction false} LiveTimer(timers: seq<Timer>, p: AbsPath) returns (t: nat)
    requires Live(timers, p) > 0
    ensures t < |timers| && timers[t].path == p && timers[t].state != Spent
  {
    if timers[0].path == p && timers[0].state != Spent { return 0; }
    t := LiveTimer(timers[1..], p);
    t := t + 1;
  }

  /** While something is unsent, the system has a step of its own to make. */
  lemma UnsentCanStep(s: System, p: AbsPath) returns (step: Step)
    requires Unsent(s, p) > 0
    ensures CanStep(s, step) && Internal(step)
  {
    if Live(s.timers, p) > 0 {
      var t := LiveTimer(s.timers, p);
      return if s.timers[t].state == Armed then Fire(t) else Flush(t);
    }
    assert p in multiset(s.sending) && s.sending != [];
    return if |s.events| < EVENT_SLOTS then Send(0) else if s.passing then End else Take;
  }

  /** A burst is one event. From a state with nothing on its way for a reported path, any number of events for it,
      with anything else between them but the firing of one of its timers, is followed by exactly one
      event in the channel once the system has come to rest. */
  lemma BurstIsOneEvent(roots: seq<AbsPath>, s: System, burst: seq<Step>, b: System, steps: seq<Step>, n: System, p: AbsPath, r: nat)
    requires Reports(roots, p, r) && AtMostOne(s, p, false)
    requires IsRun(roots, s, burst, b) && Unfired(roots, s, burst, b, p) && Handle(p) in burst
    requires IsRun(roots, b, steps, n) && (forall i :: 0 <= i < |steps| ==> Internal(steps[i]))
    requires forall step :: CanStep(n, step) ==> !Internal(step)
    ensures Sends(roots, b, steps, n, p) == 1
  {
    EmitsExactlyInside(roots, p);
    BurstLeavesOne(roots, s, burst, b, p, false);
    SendsWhatWasUnsent(roots, b, steps, n, p);
    if Unsent(n, p) > 0 { var step := UnsentCanStep(n, p); }
  }
}
