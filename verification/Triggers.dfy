/** core/watcher/watcher.go and the main loop of core/cmd/syncdrived/main.go: from a
    filesystem event to a reconciliation pass that starts after it. */
module Triggers {
  import opened SyncTypes

  /** An absolute path as its components. */
  type AbsPath = seq<string>

  // ---- isUnder and flush's filter ----

  predicate StartsWithDots(name: string) { |name| >= 2 && name[0] == '.' && name[1] == '.' }

  lemma DotsAre(name: string)
    ensures StartsWithDots(name) <==> exists rest :: name == ".." + rest
  {
    if StartsWithDots(name) { assert name == ".." + name[2..]; }
  }

  predicate IsPrefix(root: AbsPath, p: AbsPath) { |root| <= |p| && p[..|root|] == root }

  /** filepath.Rel(root, p), whose first component is ".." exactly when p is outside root. */
  function Rel(root: AbsPath, p: AbsPath): AbsPath {
    if IsPrefix(root, p) then p[|root|..] else [".."]
  }

  /** isUnder: a relative path is inside unless it starts with two dots. */
  predicate IsUnder(p: AbsPath, root: AbsPath) {
    var rel := Rel(root, p);
    rel == [] || !StartsWithDots(rel[0])
  }

  /** The first root flush attributes a path to; an event is emitted unless the path is the root itself. */
  predicate Emits(roots: seq<AbsPath>, p: AbsPath) {
    roots != [] && if IsUnder(p, roots[0]) then p != roots[0] else Emits(roots[1..], p)
  }

  /** Strictly inside a watched root. */
  predicate Inside(root: AbsPath, p: AbsPath) { IsPrefix(root, p) && |root| < |p| }

  /** Strictly inside, and the name below the root does not start with two dots. */
  predicate PlainlyInside(root: AbsPath, p: AbsPath) { Inside(root, p) && !StartsWithDots(p[|root|]) }

  lemma UnderIs(p: AbsPath, root: AbsPath)
    ensures IsUnder(p, root) <==> p == root || PlainlyInside(root, p)
  {
    if IsPrefix(root, p) && |root| == |p| { assert p == p[..|root|]; }
    if p == root { assert p[..|root|] == root; }
  }

  /** A root the path is plainly inside, with no entry before it that is the path itself. */
  predicate Reports(roots: seq<AbsPath>, p: AbsPath, r: int) {
    0 <= r < |roots| && PlainlyInside(roots[r], p) && forall j :: 0 <= j < r ==> roots[j] != p
  }

  /** For every list of roots: an event is emitted exactly for the paths that are strictly inside
      some root, with a name below it that does not start with two dots, and that are not a root
      themselves listed before every such root. */
  lemma {:induction false} EmitsExactlyInside(roots: seq<AbsPath>, p: AbsPath)
    ensures Emits(roots, p) <==> exists r :: Reports(roots, p, r)
  {
    if roots != [] {
      UnderIs(p, roots[0]);
      EmitsExactlyInside(roots[1..], p);
      if r :| Reports(roots, p, r) && r > 0 { assert roots[0] != p && Reports(roots[1..], p, r - 1); }
      if r :| Reports(roots[1..], p, r) && roots[0] != p { assert Reports(roots, p, r + 1); }
      if PlainlyInside(roots[0], p) { assert Reports(roots, p, 0) && Inside(roots[0], p); }
    }
  }

  /** A path plainly inside some root is missed exactly when it is itself a root, listed before
      every root it is plainly inside. */
  lemma MissedExactlyWhen(roots: seq<AbsPath>, p: AbsPath, r: nat)
    requires r < |roots| && PlainlyInside(roots[r], p)
    ensures !Emits(roots, p) <==>
            exists i :: 0 <= i < |roots| && roots[i] == p && forall j :: 0 <= j < i ==> !PlainlyInside(roots[j], p)
  {
    EmitsExactlyInside(roots, p);
    if !Emits(roots, p) {
      assert !Reports(roots, p, r);
      var i := FirstEntry(roots, p, r);
      forall j | 0 <= j < i ensures !PlainlyInside(roots[j], p) { assert !Reports(roots, p, j); }
    }
    if i :| 0 <= i < |roots| && roots[i] == p && forall j :: 0 <= j < i ==> !PlainlyInside(roots[j], p) {
      forall k ensures !Reports(roots, p, k) { EntryHides(roots, p, i, k); }
    }
  }

  lemma EntryHides(roots: seq<AbsPath>, p: AbsPath, i: nat, k: int)
    requires i < |roots| && roots[i] == p && forall j :: 0 <= j < i ==> !PlainlyInside(roots[j], p)
    ensures !Reports(roots, p, k)
  {
  }

  lemma FirstEntry(roots: seq<AbsPath>, p: AbsPath, r: nat) returns (i: nat)
    requires r < |roots| && exists j :: 0 <= j < r && roots[j] == p
    ensures i < r && roots[i] == p && forall j :: 0 <= j < i ==> roots[j] != p
  {
    i := 0;
    while roots[i] != p
      invariant i < r && forall j :: 0 <= j < i ==> roots[j] != p
      decreases r - i
    {
      i := i + 1;
    }
  }

  /** A file in the root whose name starts with two dots never causes an event. */
  lemma DottedNamesAreMissed()
    ensures Inside(["data"], ["data", "..notes"]) && !Emits([["data"]], ["data", "..notes"])
  {
    EmitsExactlyInside([["data"]], ["data", "..notes"]);
  }

  /** Nothing refuses a root inside another. When the inner one was added first, events for that
      folder itself, such as its removal, are missed; added second, they are not. */
  lemma NestedRootIsMissed()
    ensures var outer, inner := ["a"], ["a", "b"];
      Inside(outer, inner) && !Emits([inner, outer], inner) && Emits([outer, inner], inner)
  {
    var outer, inner := ["a"], ["a", "b"];
    assert PlainlyInside([inner, outer][1], inner);
    assert [inner, outer][0] == inner;
    MissedExactlyWhen([inner, outer], inner, 1);
    EmitsExactlyInside([outer, inner], inner);
    assert Reports([outer, inner], inner, 0);
  }

  // ---- the system ----

  datatype TimerState = Armed | Fired | Spent

  datatype Timer = Timer(path: AbsPath, state: TimerState)

  const EVENT_SLOTS := 256

  /** timers are the AfterFunc timers by age; a fired one is a flush waiting for the lock.
      pend is the map of the watcher. sending are flushes blocked on the event channel,
      events the channel itself, slot the one place for a sync request. changed are the paths
      whose events arrived since the last pass started. */
  datatype System = System(
    timers: seq<Timer>,
    pend: map<AbsPath, nat>,
    sending: seq<AbsPath>,
    events: seq<AbsPath>,
    slot: bool,
    passing: bool,
    changed: set<AbsPath>)

  const QUIET := System([], map[], [], [], false, false, {})

  datatype Step =
    | Handle(p: AbsPath)   // an fsnotify event for a path
    | Fire(t: nat)         // the debounce time of a timer is over
    | Flush(t: nat)        // its flush gets the lock
    | Send(i: nat)         // a flush puts its event into the channel
    | Take                 // the main loop takes an event and triggers
    | Request              // the poll ticker or the control API triggers
    | Begin                // the main loop takes the sync request and starts a pass
    | End                  // the pass is over

  predicate CanStep(s: System, step: Step) {
    match step
    case Handle(p) => true
    case Fire(t) => t < |s.timers| && s.timers[t].state == Armed
    case Flush(t) => t < |s.timers| && s.timers[t].state == Fired
    case Send(i) => i < |s.sending| && |s.events| < EVENT_SLOTS
    case Take => s.events != [] && !s.passing
    case Request => true
    case Begin => s.slot && !s.passing
    case End => s.passing
  }

  /** Stop only prevents a timer that has not fired yet. */
  function StopTimer(timers: seq<Timer>, t: nat): seq<Timer> {
    if t < |timers| && timers[t].state == Armed then timers[t := timers[t].(state := Spent)] else timers
  }

  function After(roots: seq<AbsPath>, s: System, step: Step): System
    requires CanStep(s, step)
  {
    match step
    case Handle(p) =>
      var stopped := if p in s.pend then StopTimer(s.timers, s.pend[p]) else s.timers;
      s.(timers := stopped + [Timer(p, Armed)], pend := s.pend[p := |stopped|],
         changed := if Emits(roots, p) then s.changed + {p} else s.changed)
    case Fire(t) => s.(timers := s.timers[t := s.timers[t].(state := Fired)])
    case Flush(t) =>
      // A late flush also removes the entry of a newer timer, which then can no longer be stopped.
      var p := s.timers[t].path;
      s.(timers := s.timers[t := s.timers[t].(state := Spent)], pend := s.pend - {p},
         sending := if Emits(roots, p) then s.sending + [p] else s.sending)
    case Send(i) => s.(sending := s.sending[..i] + s.sending[i + 1..], events := s.events + [s.sending[i]])
    case Take => s.(events := s.events[1..], slot := true)
    case Request => s.(slot := true)
    case Begin => s.(slot := false, passing := true, changed := {})
    case End => s.(passing := false)
  }

  // ---- no lost change ----

  ghost predicate TimerFor(s: System, p: AbsPath) {
    exists t :: 0 <= t < |s.timers| && s.timers[t].path == p && s.timers[t].state != Spent
  }

  /** Something is on its way that will start a pass. */
  ghost predicate Outstanding(s: System, p: AbsPath) {
    TimerFor(s, p) || p in s.sending || p in s.events || s.slot
  }

  ghost predicate Kept(roots: seq<AbsPath>, s: System) {
    && (forall p :: p in s.changed ==> Emits(roots, p) && Outstanding(s, p))
    && (forall p :: p in s.pend ==> s.pend[p] < |s.timers| && s.timers[s.pend[p]].path == p)
    && |s.events| <= EVENT_SLOTS
  }

  lemma HandleKeepsTimer(roots: seq<AbsPath>, s: System, q: AbsPath, p: AbsPath)
    requires Kept(roots, s) && TimerFor(s, p)
    ensures TimerFor(After(roots, s, Handle(q)), p)
  {
    var n := After(roots, s, Handle(q));
    var t :| 0 <= t < |s.timers| && s.timers[t].path == p && s.timers[t].state != Spent;
    assert n.timers[|n.timers| - 1] == Timer(q, Armed);
    if q != p { assert n.timers[t] == s.timers[t]; }
  }

  lemma FlushKeepsTimer(roots: seq<AbsPath>, s: System, u: nat, p: AbsPath)
    requires CanStep(s, Flush(u)) && TimerFor(s, p) && Emits(roots, p)
    ensures var n := After(roots, s, Flush(u)); TimerFor(n, p) || p in n.sending
  {
    var n := After(roots, s, Flush(u));
    var t :| 0 <= t < |s.timers| && s.timers[t].path == p && s.timers[t].state != Spent;
    if u == t { assert n.sending[|n.sending| - 1] == p; } else { assert n.timers[t] == s.timers[t]; }
  }

  lemma TimerSurvives(roots: seq<AbsPath>, s: System, step: Step, p: AbsPath)
    requires Kept(roots, s) && CanStep(s, step) && TimerFor(s, p) && Emits(roots, p)
    ensures var n := After(roots, s, step); TimerFor(n, p) || p in n.sending
  {
    match step {
      case Handle(q) => HandleKeepsTimer(roots, s, q, p);
      case Flush(u) => FlushKeepsTimer(roots, s, u, p);
      case _ =>
        var t :| 0 <= t < |s.timers| && s.timers[t].path == p && s.timers[t].state != Spent;
        var n := After(roots, s, step);
        assert n.timers[t].path == p && n.timers[t].state != Spent;
    }
  }

  lemma SendingSurvives(roots: seq<AbsPath>, s: System, step: Step, p: AbsPath)
    requires CanStep(s, step) && p in s.sending
    ensures var n := After(roots, s, step); p in n.sending || p in n.events
  {
    var n := After(roots, s, step);
    var j :| 0 <= j < |s.sending| && s.sending[j] == p;
    match step {
      case Flush(t) => assert n.sending[j] == p;
      case Send(i) =>
        if i == j { assert n.events[|n.events| - 1] == p; }
        else if j < i { assert n.sending[j] == p; }
        else { assert n.sending[j - 1] == p; }
      case _ => assert n.sending == s.sending;
    }
  }

  lemma EventSurvives(roots: seq<AbsPath>, s: System, step: Step, p: AbsPath)
    requires CanStep(s, step) && p in s.events
    ensures var n := After(roots, s, step); p in n.events || n.slot
  {
    var n := After(roots, s, step);
    var j :| 0 <= j < |s.events| && s.events[j] == p;
    match step {
      case Send(i) => assert n.events[j] == p;
      case Take =>
      case _ => assert n.events == s.events;
    }
  }

  lemma StepKeeps(roots: seq<AbsPath>, s: System, step: Step)
    requires Kept(roots, s) && CanStep(s, step)
    ensures Kept(roots, After(roots, s, step))
  {
    var n := After(roots, s, step);
    forall p | p in n.changed ensures Emits(roots, p) && Outstanding(n, p) {
      if p in s.changed {
        if TimerFor(s, p) { TimerSurvives(roots, s, step, p); }
        else if p in s.sending { SendingSurvives(roots, s, step, p); }
        else if p in s.events { EventSurvives(roots, s, step, p); }
      } else {
        assert step == Handle(p);
        assert n.timers[|n.timers| - 1] == Timer(p, Armed);
      }
    }
  }

  // ---- it does happen ----

  function TimerWeight(t: Timer): nat { match t.state case Armed => 6 case Fired => 5 case Spent => 0 }

  function TimerWeights(ts: seq<Timer>): nat { if ts == [] then 0 else TimerWeight(ts[0]) + TimerWeights(ts[1..]) }

  function Work(s: System): nat {
    TimerWeights(s.timers) + 4 * |s.sending| + 3 * |s.events| + (if s.slot then 2 else 0) + (if s.passing then 1 else 0)
  }

  lemma {:induction false} TimerWeightsUpdate(ts: seq<Timer>, i: nat, t: Timer)
    requires i < |ts|
    ensures TimerWeights(ts[i := t]) + TimerWeight(ts[i]) == TimerWeights(ts) + TimerWeight(t)
  {
    if i == 0 {
      assert ts[0 := t][1..] == ts[1..];
    } else {
      assert ts[i := t][1..] == ts[1..][i - 1 := t];
      TimerWeightsUpdate(ts[1..], i - 1, t);
    }
  }

  predicate Internal(step: Step) { !step.Handle? && !step.Request? }

  /** Left to itself the system comes to rest: each of its own steps makes the work smaller. */
  lemma InternalStepDecreases(roots: seq<AbsPath>, s: System, step: Step)
    requires CanStep(s, step) && Internal(step)
    ensures Work(After(roots, s, step)) < Work(s)
  {
    match step {
      case Fire(t) => TimerWeightsUpdate(s.timers, t, s.timers[t].(state := Fired));
      case Flush(t) => TimerWeightsUpdate(s.timers, t, s.timers[t].(state := Spent));
      case _ =>
    }
  }

  /** While a change is outstanding, the system has a step of its own to make. */
  lemma NoDeadlock(roots: seq<AbsPath>, s: System, p: AbsPath) returns (step: Step)
    requires Kept(roots, s) && p in s.changed
    ensures CanStep(s, step) && Internal(step)
  {
    if s.passing { return End; }
    if s.slot { return Begin; }
    if s.events != [] { return Take; }
    if s.sending != [] { return Send(0); }
    var t :| 0 <= t < |s.timers| && s.timers[t].path == p && s.timers[t].state != Spent;
    return if s.timers[t].state == Armed then Fire(t) else Flush(t);
  }

  ghost predicate IsRun(roots: seq<AbsPath>, s: System, steps: seq<Step>, n: System)
    decreases |steps|
  {
    if steps == [] then s == n else CanStep(s, steps[0]) && IsRun(roots, After(roots, s, steps[0]), steps[1..], n)
  }

  lemma {:induction false} RunKeeps(roots: seq<AbsPath>, s: System, steps: seq<Step>, n: System)
    requires Kept(roots, s) && IsRun(roots, s, steps, n)
    ensures Kept(roots, n)
    decreases |steps|
  {
    if steps != [] {
      StepKeeps(roots, s, steps[0]);
      RunKeeps(roots, After(roots, s, steps[0]), steps[1..], n);
    }
  }

  /** No pass started during a run keeps every change in the set. */
  lemma {:induction false} ChangedUntilBegin(roots: seq<AbsPath>, s: System, steps: seq<Step>, n: System, p: AbsPath)
    requires IsRun(roots, s, steps, n) && p in s.changed
    requires forall i :: 0 <= i < |steps| ==> !steps[i].Begin?
    ensures p in n.changed
    decreases |steps|
  {
    if steps != [] {
      ChangedUntilBegin(roots, After(roots, s, steps[0]), steps[1..], n, p);
    }
  }

  /** A run of the system's own steps is at most as long as the work there was. */
  lemma {:induction false} InternalRunEnds(roots: seq<AbsPath>, s: System, steps: seq<Step>, n: System)
    requires IsRun(roots, s, steps, n) && forall i :: 0 <= i < |steps| ==> Internal(steps[i])
    ensures |steps| + Work(n) <= Work(s)
    decreases |steps|
  {
    if steps != [] {
      InternalStepDecreases(roots, s, steps[0]);
      InternalRunEnds(roots, After(roots, s, steps[0]), steps[1..], n);
    }
  }

  lemma QuietIsKept(roots: seq<AbsPath>)
    ensures Kept(roots, QUIET)
  {
  }

  /** No lost change. In any run from the start, with any interleaving of timer stops, late flushes,
      full channels, full request slots and running passes, and for any list of roots: after an
      event for a path that some root reports, a pass started, or one is still on its way; a run
      that makes all the steps it can has started one; and left to itself the system makes no
      more steps than the work there was, so that one does start. */
  lemma EveryChangeReachesAPass(roots: seq<AbsPath>, before: seq<Step>, s: System, p: AbsPath, r: nat,
                                steps: seq<Step>, n: System)
    requires IsRun(roots, QUIET, before, s) && Reports(roots, p, r)
    requires IsRun(roots, After(roots, s, Handle(p)), steps, n)
    ensures (exists i :: 0 <= i < |steps| && steps[i].Begin?) || Outstanding(n, p)
    ensures (forall step :: CanStep(n, step) ==> !Internal(step)) ==> exists i :: 0 <= i < |steps| && steps[i].Begin?
    ensures (forall i :: 0 <= i < |steps| ==> Internal(steps[i])) ==> |steps| <= Work(After(roots, s, Handle(p)))
  {
    var s1 := After(roots, s, Handle(p));
    EmitsExactlyInside(roots, p);
    QuietIsKept(roots);
    RunKeeps(roots, QUIET, before, s);
    StepKeeps(roots, s, Handle(p));
    RunKeeps(roots, s1, steps, n);
    if forall i :: 0 <= i < |steps| ==> !steps[i].Begin? {
      ChangedUntilBegin(roots, s1, steps, n, p);
      var step := NoDeadlock(roots, n, p);
    }
    if forall i :: 0 <= i < |steps| ==> Internal(steps[i]) { InternalRunEnds(roots, s1, steps, n); }
  }

  /** Nothing is under way that would lead to an event. */
  ghost predicate Deaf(roots: seq<AbsPath>, s: System) {
    && (forall t :: 0 <= t < |s.timers| && s.timers[t].state != Spent ==> !Emits(roots, s.timers[t].path))
    && s.sending == [] && s.events == [] && !s.slot && !s.passing
  }

  /** The converse: after an event for a path that no root reports, a quiet system starts no pass
      of its own. */
  lemma {:induction false} MissedChangeStartsNothing(roots: seq<AbsPath>, s: System, p: AbsPath, steps: seq<Step>, n: System)
    requires Deaf(roots, s)
    requires forall r :: !Reports(roots, p, r)
    requires IsRun(roots, After(roots, s, Handle(p)), steps, n) && forall i :: 0 <= i < |steps| ==> Internal(steps[i])
    ensures forall i :: 0 <= i < |steps| ==> !steps[i].Begin?
  {
    EmitsExactlyInside(roots, p);
    var s1 := After(roots, s, Handle(p));
    assert Deaf(roots, s1);
    DeafStays(roots, s1, steps, n);
  }

  lemma {:induction false} DeafStays(roots: seq<AbsPath>, s: System, steps: seq<Step>, n: System)
    requires Deaf(roots, s) && IsRun(roots, s, steps, n) && forall i :: 0 <= i < |steps| ==> Internal(steps[i])
    ensures forall i :: 0 <= i < |steps| ==> !steps[i].Begin?
    decreases |steps|
  {
    if steps != [] {
      var s1 := After(roots, s, steps[0]);
      assert steps[0].Fire? || steps[0].Flush?;
      assert forall t :: 0 <= t < |s1.timers| && s1.timers[t].state != Spent ==>
                         s.timers[t].state != Spent && s1.timers[t].path == s.timers[t].path;
      DeafStays(roots, s1, steps[1..], n);
      forall i | 0 <= i < |steps| ensures !steps[i].Begin? {
        if i > 0 { assert steps[i] == steps[1..][i - 1]; }
      }
    }
  }

  /** Every request is followed by a pass that starts after it, or finds the slot still full. */
  lemma {:induction false} EveryRequestReachesAPass(roots: seq<AbsPath>, s: System, steps: seq<Step>, n: System)
    requires s.slot && IsRun(roots, s, steps, n)
    ensures n.slot || exists i :: 0 <= i < |steps| && steps[i].Begin?
    decreases |steps|
  {
    if steps != [] {
      if !steps[0].Begin? {
        var rest := steps[1..];
        EveryRequestReachesAPass(roots, After(roots, s, steps[0]), rest, n);
        if i :| 0 <= i < |rest| && rest[i].Begin? { assert steps[i + 1].Begin?; }
      }
    }
  }
}
