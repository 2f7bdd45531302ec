/** core/watcher/watcher.go and the daemon's main loop, on their own fields. Every method is
    one step of the system in Triggers. */
module EventLoop {
  import opened SyncTypes
  import opened Triggers

  class Watcher {
    const roots: seq<AbsPath>
    var timers: seq<Timer>
    var pend: map<AbsPath, nat>
    var sending: seq<AbsPath>
    var events: seq<AbsPath>

    constructor (r: seq<AbsPath>)
      ensures roots == r && timers == [] && pend == map[] && sending == [] && events == []
    {
      roots, timers, pend, sending, events := r, [], map[], [], [];
    }

    /** Every pending timer is known, under the path it was started for. */
    ghost predicate Valid()
      reads this
    {
      forall p :: p in pend ==> pend[p] < |timers| && timers[pend[p]].path == p
    }

    /** The watcher's part of the system; its steps read and write nothing else but changed. */
    ghost function State(changed: set<AbsPath>): System
      reads this
    {
      System(timers, pend, sending, events, false, false, changed)
    }

    /** An fsnotify event: the path's pending timer, if any, is stopped, and a new one started. */
    method HandleEvent(p: AbsPath)
      requires Valid()
      modifies `timers, `pend
      ensures Valid()
      ensures State(if Emits(roots, p) then {p} else {}) == After(roots, old(State({})), Handle(p))
    {
      if p in pend { timers := StopTimer(timers, pend[p]); }
      timers, pend := timers + [Timer(p, Armed)], pend[p := |timers|];
    }

    /** The root a path belongs to: the first it is under. */
    method RootOf(p: AbsPath) returns (root: Option<AbsPath>)
      ensures root.Some? <==> exists i :: 0 <= i < |roots| && IsUnder(p, roots[i])
      ensures root.Some? ==> exists i :: 0 <= i < |roots| && roots[i] == root.value && IsUnder(p, roots[i])
                               && forall j :: 0 <= j < i ==> !IsUnder(p, roots[j])
      ensures Emits(roots, p) <==> root.Some? && root.value != p
    {
      var i := 0;
      while i < |roots|
        invariant 0 <= i <= |roots|
        invariant forall j :: 0 <= j < i ==> !IsUnder(p, roots[j])
        invariant Emits(roots, p) == Emits(roots[i..], p)
      {
        if IsUnder(p, roots[i]) { return Some(roots[i]); }
        assert roots[i..][1..] == roots[i + 1..];
        i := i + 1;
      }
      return None;
    }

    /** A timer's function, up to the point where it blocks on the event channel. */
    method FlushTimer(t: nat)
      requires Valid() && t < |timers| && timers[t].state == Fired
      modifies `timers, `pend, `sending
      ensures Valid()
      ensures State({}) == After(roots, old(State({})), Flush(t))
    {
      var p := timers[t].path;
      var root := RootOf(p);
      timers := timers[t := timers[t].(state := Spent)];
      pend := pend - {p};
      if root.None? || root.value == p { return; }
      sending := sending + [p];
    }

    /** One blocked flush gets its event into the channel, when it has room. */
    method SendEvent(i: nat) returns (sent: bool)
      requires i < |sending|
      modifies `sending, `events
      ensures sent <==> |old(events)| < 256
      ensures !sent ==> sending == old(sending) && events == old(events)
      ensures sent ==> State({}) == After(roots, old(State({})), Send(i))
    {
      sent := |events| < EVENT_SLOTS;
      if sent {
        events := events + [sending[i]];
        sending := sending[..i] + sending[i + 1..];
      }
    }
  }

  class Daemon {
    const watcher: Watcher
    var syncReq: bool  // the one slot of the request channel
    var passing: bool
    ghost var changed: set<AbsPath>

    constructor (w: Watcher)
      ensures watcher == w && !syncReq && !passing && changed == {}
    {
      watcher, syncReq, passing, changed := w, false, false, {};
    }

    ghost function State(): System
      reads this, watcher
    {
      System(watcher.timers, watcher.pend, watcher.sending, watcher.events, syncReq, passing, changed)
    }

    /** A request for a pass; when one is queued already, this one is absorbed by it. */
    method TriggerSync()
      modifies `syncReq
      ensures State() == After(watcher.roots, old(State()), Request)
    {
      if !syncReq { syncReq := true; }
    }

    /** One turn of the loop, when something is ready: the ticker, a file event or a request, the
        runtime choosing when several are. A pass starts only on a request. */
    method Turn(tick: bool, requestFirst: bool) returns (did: Step)
      requires !passing && (tick || watcher.events != [] || syncReq)
      modifies `syncReq, `passing, `changed, watcher`events
      ensures did in {Take, Request, Begin} && CanStep(old(State()), did)
      ensures State() == After(watcher.roots, old(State()), did)
      ensures did == Begin ==> old(syncReq) && passing
      ensures did == Request <==> tick
    {
      if tick {
        TriggerSync();
        return Request;
      }
      if syncReq && (requestFirst || watcher.events == []) {
        syncReq, passing, changed := false, true, {};
        return Begin;
      }
      watcher.events := watcher.events[1..];
      TriggerSync();
      return Take;
    }

    /** syncAll returns. */
    method PassEnds()
      requires passing
      modifies `passing
      ensures State() == After(watcher.roots, old(State()), End)
    {
      passing := false;
    }
  }
}
