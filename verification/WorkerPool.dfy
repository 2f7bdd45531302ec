/** core/sync/worker.go with the feeder and the consumer of core/sync/engine.go: the
    channel-fed worker pool as a transition system. */
module WorkerPool {

  datatype Result<T> = Result(task: T, ok: bool)

  /** A worker goroutine: at its select, executing a task, at the select that emits the
      result, or returned. */
  datatype Worker<T> = Idle | Executing(task: T) | Emitting(result: Result<T>) | Stopped

  /** feeding: the feeder has not closed the task channel. buffer is the result channel, whose
      capacity is the number of workers. dropped are results lost to cancellation. */
  datatype Pool<T> = Pool(
    unsent: seq<T>,
    feeding: bool,
    workers: seq<Worker<T>>,
    buffer: seq<Result<T>>,
    delivered: seq<Result<T>>,
    dropped: multiset<T>,
    cancelled: bool,
    closed: bool)

  datatype Step =
    | Hand(w: nat)               // the feeder hands the next task to an idle worker
    | FeederDone                 // all tasks sent, or cancelled: the task channel is closed
    | Finish(w: nat, ok: bool)   // a worker's Execute returns
    | Emit(w: nat)               // a worker puts its result into the buffer
    | Drop(w: nat)               // a worker gives up its result because of the cancellation
    | Stop(w: nat)               // an idle worker sees the closed channel or the cancellation
    | Close                      // every worker has returned: the result channel is closed
    | Receive                    // the consumer takes a result
    | Cancel

  /** NewPool: a non-positive worker count means four. */
  function Start<T>(tasks: seq<T>, workers: int): Pool<T> {
    Pool(tasks, true, seq(if workers <= 0 then 4 else workers, _ => Idle), [], [], multiset{}, false, false)
  }

  predicate CanStep<T(==)>(p: Pool<T>, s: Step) {
    match s
    case Hand(w) => p.feeding && p.unsent != [] && w < |p.workers| && p.workers[w].Idle?
    case FeederDone => p.feeding && (p.unsent == [] || p.cancelled)
    case Finish(w, _) => w < |p.workers| && p.workers[w].Executing?
    case Emit(w) => w < |p.workers| && p.workers[w].Emitting? && |p.buffer| < |p.workers|
    case Drop(w) => w < |p.workers| && p.workers[w].Emitting? && p.cancelled
    case Stop(w) => w < |p.workers| && p.workers[w].Idle? && (!p.feeding || p.cancelled)
    case Close => !p.closed && forall w :: 0 <= w < |p.workers| ==> p.workers[w].Stopped?
    case Receive => p.buffer != []
    case Cancel => !p.cancelled
  }

  function After<T(==)>(p: Pool<T>, s: Step): Pool<T>
    requires CanStep(p, s)
  {
    match s
    case Hand(w) => p.(unsent := p.unsent[1..], workers := p.workers[w := Executing(p.unsent[0])])
    case FeederDone => p.(feeding := false)
    case Finish(w, ok) => p.(workers := p.workers[w := Emitting(Result(p.workers[w].task, ok))])
    case Emit(w) => p.(buffer := p.buffer + [p.workers[w].result], workers := p.workers[w := Idle])
    case Drop(w) => p.(dropped := p.dropped + multiset{p.workers[w].result.task}, workers := p.workers[w := Stopped])
    case Stop(w) => p.(workers := p.workers[w := Stopped])
    case Close => p.(closed := true)
    case Receive => p.(delivered := p.delivered + [p.buffer[0]], buffer := p.buffer[1..])
    case Cancel => p.(cancelled := true)
  }

  // ---- conservation ----

  function One<T(==)>(t: T, x: T): nat { if t == x then 1 else 0 }

  /** How often task x is with a worker. */
  function Held<T(==)>(w: Worker<T>, x: T): nat {
    match w
    case Executing(t) => One(t, x)
    case Emitting(r) => One(r.task, x)
    case _ => 0
  }

  function Underway<T(==)>(ws: seq<Worker<T>>, x: T): nat {
    if ws == [] then 0 else Held(ws[0], x) + Underway(ws[1..], x)
  }

  /** How often task x is among results. */
  function Among<T(==)>(rs: seq<Result<T>>, x: T): nat {
    if rs == [] then 0 else One(rs[0].task, x) + Among(rs[1..], x)
  }

  /** How often the pool has task x, wherever it is. */
  function Total<T(==)>(p: Pool<T>, x: T): nat {
    multiset(p.unsent)[x] + Underway(p.workers, x) + Among(p.buffer, x) + Among(p.delivered, x) + p.dropped[x]
  }

  lemma {:induction false} UnderwayUpdate<T>(ws: seq<Worker<T>>, i: nat, w: Worker<T>, x: T)
    requires i < |ws|
    ensures Underway(ws[i := w], x) + Held(ws[i], x) == Underway(ws, x) + Held(w, x)
  {
    if i == 0 {
      assert ws[0 := w][1..] == ws[1..];
    } else {
      assert ws[i := w][1..] == ws[1..][i - 1 := w];
      UnderwayUpdate(ws[1..], i - 1, w, x);
    }
  }

  lemma {:induction false} AmongAppend<T>(rs: seq<Result<T>>, r: Result<T>, x: T)
    ensures Among(rs + [r], x) == Among(rs, x) + One(r.task, x)
  {
    if rs == [] {
      assert [r][1..] == [];
    } else {
      assert (rs + [r])[1..] == rs[1..] + [r];
      AmongAppend(rs[1..], r, x);
    }
  }

  lemma StepConserves<T>(p: Pool<T>, s: Step, x: T)
    requires CanStep(p, s)
    ensures Total(After(p, s), x) == Total(p, x)
  {
    match s {
      case Hand(w) =>
        UnderwayUpdate(p.workers, w, Executing(p.unsent[0]), x);
        assert p.unsent == [p.unsent[0]] + p.unsent[1..];
      case Finish(w, ok) => UnderwayUpdate(p.workers, w, Emitting(Result(p.workers[w].task, ok)), x);
      case Emit(w) =>
        UnderwayUpdate(p.workers, w, Idle, x);
        AmongAppend(p.buffer, p.workers[w].result, x);
      case Drop(w) => UnderwayUpdate(p.workers, w, Stopped, x);
      case Stop(w) => UnderwayUpdate(p.workers, w, Stopped, x);
      case Receive =>
        assert p.buffer == [p.buffer[0]] + p.buffer[1..];
        AmongAppend(p.delivered, p.buffer[0], x);
      case _ =>
    }
  }

  lemma {:induction false} IndicesBound(n: nat, some: set<int>)
    requires forall i :: i in some ==> 0 <= i < n
    ensures |some| <= n
  {
    if some != {} {
      var rest := some - {n - 1};
      assert forall i :: i in rest ==> 0 <= i < n - 1;
      assert n > 0 && |some| <= |rest| + 1;
      IndicesBound(n - 1, rest);
    }
  }

  /** What every reachable state of a pool started on tasks with n workers satisfies. */
  ghost predicate Sound<T(!new)>(p: Pool<T>, tasks: seq<T>, n: nat) {
    && (forall x :: Total(p, x) == multiset(tasks)[x])
    && |p.workers| == n && |p.buffer| <= n
    && (p.closed ==> AllStopped(p))
    && (!p.cancelled ==> p.dropped == multiset{})
    && (!p.cancelled && AnyStopped(p) ==> !p.feeding)
    && (!p.feeding && !p.cancelled ==> p.unsent == [])
  }

  ghost predicate AllStopped<T(!new)>(p: Pool<T>) { forall w :: 0 <= w < |p.workers| ==> p.workers[w].Stopped? }

  ghost predicate AnyStopped<T(!new)>(p: Pool<T>) { exists w :: 0 <= w < |p.workers| && p.workers[w].Stopped? }

  lemma {:induction false} NothingUnderway<T>(ws: seq<Worker<T>>, x: T)
    requires forall w :: 0 <= w < |ws| ==> ws[w].Stopped? || ws[w].Idle?
    ensures Underway(ws, x) == 0
  {
    if ws != [] { NothingUnderway(ws[1..], x); }
  }

  lemma StartIsSound<T(!new)>(tasks: seq<T>, workers: int)
    ensures var n := if workers <= 0 then 4 else workers; n > 0 && Sound(Start(tasks, workers), tasks, n)
  {
    forall x ensures Total(Start(tasks, workers), x) == multiset(tasks)[x] {
      NothingUnderway(Start(tasks, workers).workers, x);
    }
  }

  lemma StepIsSound<T(!new)>(p: Pool<T>, s: Step, tasks: seq<T>, n: nat)
    requires Sound(p, tasks, n) && CanStep(p, s)
    ensures Sound(After(p, s), tasks, n)
    ensures p.closed ==> !s.Emit?   // nothing is ever sent on the closed result channel
  {
    var q := After(p, s);
    forall x ensures Total(q, x) == multiset(tasks)[x] { StepConserves(p, s, x); }
    if AllStopped(p) { StoppedStays(p, s); }
    if AnyStopped(q) { StoppedOrigin(p, s); }
  }

  lemma StoppedStays<T(!new)>(p: Pool<T>, s: Step)
    requires CanStep(p, s) && AllStopped(p)
    ensures AllStopped(After(p, s)) && !s.Emit?
  {
  }

  lemma StoppedOrigin<T(!new)>(p: Pool<T>, s: Step)
    requires CanStep(p, s) && AnyStopped(After(p, s))
    ensures AnyStopped(p) || p.cancelled || !p.feeding
  {
    if !s.Drop? && !s.Stop? {
      var w :| 0 <= w < |After(p, s).workers| && After(p, s).workers[w].Stopped?;
      assert p.workers[w].Stopped?;
    }
  }

  // ---- termination ----

  function Weight<T>(w: Worker<T>): nat {
    match w case Idle => 1 case Executing(_) => 4 case Emitting(_) => 3 case Stopped => 0
  }

  function Weights<T>(ws: seq<Worker<T>>): nat {
    if ws == [] then 0 else Weight(ws[0]) + Weights(ws[1..])
  }

  lemma {:induction false} WeightsUpdate<T>(ws: seq<Worker<T>>, i: nat, w: Worker<T>)
    requires i < |ws|
    ensures Weights(ws[i := w]) + Weight(ws[i]) == Weights(ws) + Weight(w)
  {
    if i == 0 {
      assert ws[0 := w][1..] == ws[1..];
    } else {
      assert ws[i := w][1..] == ws[1..][i - 1 := w];
      WeightsUpdate(ws[1..], i - 1, w);
    }
  }

  function Measure<T>(p: Pool<T>): nat {
    4 * |p.unsent| + Weights(p.workers) + |p.buffer|
    + (if p.feeding then 1 else 0) + (if p.closed then 0 else 1) + (if p.cancelled then 0 else 1)
  }

  /** Every step makes the measure smaller: every run ends. */
  lemma StepDecreases<T>(p: Pool<T>, s: Step)
    requires CanStep(p, s)
    ensures Measure(After(p, s)) < Measure(p)
  {
    match s {
      case Hand(w) => WeightsUpdate(p.workers, w, Executing(p.unsent[0]));
      case Finish(w, ok) => WeightsUpdate(p.workers, w, Emitting(Result(p.workers[w].task, ok)));
      case Emit(w) => WeightsUpdate(p.workers, w, Idle);
      case Drop(w) => WeightsUpdate(p.workers, w, Stopped);
      case Stop(w) => WeightsUpdate(p.workers, w, Stopped);
      case _ =>
    }
  }

  /** No deadlock: until the results are closed and drained, something other than a
      cancellation can happen, provided the consumer keeps draining. */
  lemma Progress<T(!new)>(p: Pool<T>) returns (s: Step)
    requires !(p.closed && p.buffer == [])
    ensures CanStep(p, s) && !s.Cancel?
  {
    if p.buffer != [] { return Receive; }
    if AllStopped(p) { return Close; }
    var w :| 0 <= w < |p.workers| && !p.workers[w].Stopped?;
    match p.workers[w] {
      case Executing(_) => return Finish(w, true);
      case Emitting(_) => return Emit(w);
      case Idle =>
        if !p.feeding || p.cancelled { return Stop(w); }
        if p.unsent == [] { return FeederDone; }
        return Hand(w);
    }
  }

  // ---- whole runs ----

  ghost predicate IsRun<T>(p: Pool<T>, steps: seq<Step>, q: Pool<T>)
    decreases |steps|
  {
    if steps == [] then p == q else CanStep(p, steps[0]) && IsRun(After(p, steps[0]), steps[1..], q)
  }

  lemma {:induction false} RunIsSound<T(!new)>(p: Pool<T>, steps: seq<Step>, q: Pool<T>, tasks: seq<T>, n: nat)
    requires Sound(p, tasks, n) && IsRun(p, steps, q)
    ensures Sound(q, tasks, n) && |steps| + Measure(q) <= Measure(p)
    decreases |steps|
  {
    if steps != [] {
      StepIsSound(p, steps[0], tasks, n);
      StepDecreases(p, steps[0]);
      RunIsSound(After(p, steps[0]), steps[1..], q, tasks, n);
    }
  }

  /** Conservation: in every reachable state, the tasks not yet sent, with a worker, buffered,
      delivered and dropped by cancellation are together exactly the input; at most n are
      executing; and the results are closed only when every worker has stopped. */
  lemma PoolConserves<T(!new)>(tasks: seq<T>, workers: int, steps: seq<Step>, q: Pool<T>)
    requires IsRun(Start(tasks, workers), steps, q)
    ensures forall x :: multiset(q.unsent)[x] + Underway(q.workers, x) + Among(q.buffer, x) + Among(q.delivered, x)
                        + q.dropped[x] == multiset(tasks)[x]
    ensures |set w | 0 <= w < |q.workers| && q.workers[w].Executing?| <= if workers <= 0 then 4 else workers
    ensures q.closed ==> AllStopped(q)
    ensures |steps| <= Measure(Start(tasks, workers))
  {
    StartIsSound(tasks, workers);
    RunIsSound(Start(tasks, workers), steps, q, tasks, if workers <= 0 then 4 else workers);
    IndicesBound(|q.workers|, set w | 0 <= w < |q.workers| && q.workers[w].Executing?);
    forall x ensures multiset(q.unsent)[x] + Underway(q.workers, x) + Among(q.buffer, x) + Among(q.delivered, x)
                     + q.dropped[x] == multiset(tasks)[x]
    {
      assert Total(q, x) == multiset(tasks)[x];
    }
  }

  /** Exactly once: a run that cannot go on, without cancellation, has closed the results and
      delivered each task to the consumer exactly once. */
  lemma PoolDelivers<T(!new)>(tasks: seq<T>, workers: int, steps: seq<Step>, q: Pool<T>)
    requires IsRun(Start(tasks, workers), steps, q)
    requires !q.cancelled && forall s :: CanStep(q, s) ==> s.Cancel?
    ensures q.closed && forall x :: Among(q.delivered, x) == multiset(tasks)[x]
  {
    var n := if workers <= 0 then 4 else workers;
    StartIsSound(tasks, workers);
    RunIsSound(Start(tasks, workers), steps, q, tasks, n);
    if !(q.closed && q.buffer == []) {
      var s := Progress(q);
    }
    forall x ensures Among(q.delivered, x) == multiset(tasks)[x] {
      NothingUnderway(q.workers, x);
      assert Total(q, x) == multiset(tasks)[x];
    }
  }
}
