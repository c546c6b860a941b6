/** The worker pool of src/utils/thread_pool.hpp, as steps at lock granularity.

    A step is what one thread does in one critical section, or between two of them.  A run is any
    list of steps: a step that is not possible where it is tried changes nothing, so every
    interleaving of submitters, workers and the thread that shuts down is a run.  Tasks do not
    throw; they are named by the order in which `Submit` accepts them.
  */
module ThreadPool {
  import opened Options

  /** Where a worker is in its loop. */
  datatype Worker =
    | Fetching           // about to take `queue_mutex_` and evaluate the wait predicate
    | Asleep             // inside `condition_.wait`
    | Fetched(task: nat) // popped, not yet counted in `active_count_`
    | Running(task: nat) // counted, inside `task()`
    | Ran(task: nat)     // `task()` returned, still counted
    | Signalling         // about to call `active_cv_.notify_one`
    | Exited

  datatype Shutdown = NotCalled | Flagged | Notified | Returned

  datatype Pool = Pool(
    workers: seq<Worker>,
    queue: seq<nat>,
    accepted: nat,          // how many tasks `Submit` has queued so far
    notifiers: nat,         // submitters between their unlock and `condition_.notify_one`
    stop: bool,
    shutdown: Shutdown,
    activeCount: nat,
    dequeued: seq<nat>,     // tasks in the order they left the queue
    done: seq<nat>)         // tasks in the order they finished

  datatype Step =
    | Submit
    | NotifyOne(w: nat)     // wakes `w` if it sleeps; wakes nobody only if nobody sleeps
    | SpuriousWake(w: nat)
    | Fetch(w: nat)
    | Begin(w: nat)
    | Run(w: nat)
    | End(w: nat)
    | Signal(w: nat)
    | SetStop
    | NotifyAll
    | Join

  function Create(workers: nat): Pool {
    Pool(seq(workers, _ => Fetching), [], 0, 0, false, NotCalled, 0, [], [])
  }

  function At(s: Pool, w: nat): Option<Worker> {
    if w < |s.workers| then Some(s.workers[w]) else None
  }

  predicate SomeAsleep(s: Pool) {
    exists w :: 0 <= w < |s.workers| && s.workers[w] == Asleep
  }

  predicate AllExited(s: Pool) {
    forall w :: 0 <= w < |s.workers| ==> s.workers[w] == Exited
  }

  predicate Enabled(s: Pool, step: Step) {
    match step
    case Submit => !s.stop
    case NotifyOne(w) => s.notifiers > 0 && (At(s, w) == Some(Asleep) || !SomeAsleep(s))
    case SpuriousWake(w) => At(s, w) == Some(Asleep)
    case Fetch(w) => At(s, w) == Some(Fetching)
    case Begin(w) => At(s, w).Some? && At(s, w).value.Fetched?
    case Run(w) => At(s, w).Some? && At(s, w).value.Running?
    case End(w) => At(s, w).Some? && At(s, w).value.Ran?
    case Signal(w) => At(s, w) == Some(Signalling)
    case SetStop => s.shutdown == NotCalled
    case NotifyAll => s.shutdown == Flagged
    case Join => s.shutdown == Notified && AllExited(s)
  }

  function Move(s: Pool, w: nat, pc: Worker): Pool
    requires w < |s.workers|
  {
    s.(workers := s.workers[w := pc])
  }

  function Apply(s: Pool, step: Step): Pool
    requires Enabled(s, step)
  {
    match step
    case Submit => s.(queue := s.queue + [s.accepted], accepted := s.accepted + 1, notifiers := s.notifiers + 1)
    case NotifyOne(w) =>
      var sent := s.(notifiers := s.notifiers - 1);
      if SomeAsleep(s) then Move(sent, w, Fetching) else sent
    case SpuriousWake(w) => Move(s, w, Fetching)
    case Fetch(w) =>
      if s.queue != [] then
        Move(s, w, Fetched(s.queue[0])).(queue := s.queue[1..], dequeued := s.dequeued + [s.queue[0]])
      else if s.stop then Move(s, w, Exited)
      else Move(s, w, Asleep)
    case Begin(w) => Move(s, w, Running(s.workers[w].task)).(activeCount := s.activeCount + 1)
    case Run(w) => Move(s, w, Ran(s.workers[w].task)).(done := s.done + [s.workers[w].task])
    case End(w) => Move(s, w, Signalling).(activeCount := if s.activeCount > 0 then s.activeCount - 1 else 0)
    case Signal(w) => Move(s, w, Fetching)
    case SetStop => s.(stop := true, shutdown := Flagged)
    case NotifyAll =>
      s.(shutdown := Notified,
         workers := seq(|s.workers|, w requires 0 <= w < |s.workers| => if s.workers[w] == Asleep then Fetching
             else s.workers[w]))
    case Join => s.(shutdown := Returned)
  }

  function Exec(s: Pool, steps: seq<Step>): Pool
    decreases |steps|
  {
    if steps == [] then s
    else Exec(if Enabled(s, steps[0]) then Apply(s, steps[0]) else s, steps[1..])
  }

  /** `s` can occur in a pool created with `workers` threads. */
  ghost predicate Reachable(workers: nat, s: Pool) {
    exists steps :: s == Exec(Create(workers), steps)
  }

  // ---------------------------------------------------------------------------------------------
  // Counting workers
  // ---------------------------------------------------------------------------------------------

  /** What a worker can be weighed by. */
  datatype Weight = Active | OnItsWay | Holding(t: nat) | Distance

  ghost function Weigh(weight: Weight, w: Worker): nat {
    match weight
    case Active => if w.Running? || w.Ran? then 1 else 0
    case OnItsWay => if w == Fetching then 1 else 0
    case Holding(t) => if (w.Fetched? || w.Running?) && w.task == t then 1 else 0
    case Distance =>
      match w
      case Asleep => 2
      case Fetching => 1
      case Fetched(_) => 5
      case Running(_) => 4
      case Ran(_) => 3
      case Signalling => 2
      case Exited => 0
  }

  ghost function Count(workers: seq<Worker>, weight: Weight): nat {
    if workers == [] then 0 else Weigh(weight, workers[0]) + Count(workers[1..], weight)
  }

  lemma {:induction false} CountMove(workers: seq<Worker>, w: nat, pc: Worker, weight: Weight)
    requires w < |workers|
    ensures Count(workers[w := pc], weight) + Weigh(weight, workers[w]) == Count(workers, weight) + Weigh(weight, pc)
  {
    if w == 0 {
      assert workers[w := pc][1..] == workers[1..];
    } else {
      CountMove(workers[1..], w - 1, pc, weight);
      assert workers[w := pc][1..] == workers[1..][w - 1 := pc];
    }
  }

  lemma {:induction false} CountZero(workers: seq<Worker>, weight: Weight)
    requires forall w :: 0 <= w < |workers| ==> Weigh(weight, workers[w]) == 0
    ensures Count(workers, weight) == 0
  {
    if workers != [] {
      CountZero(workers[1..], weight);
    }
  }

  lemma {:induction false} CountSame(a: seq<Worker>, b: seq<Worker>, weight: Weight)
    requires |a| == |b| && forall w :: 0 <= w < |a| ==> Weigh(weight, a[w]) == Weigh(weight, b[w])
    ensures Count(a, weight) == Count(b, weight)
  {
    if a != [] {
      CountSame(a[1..], b[1..], weight);
    }
  }

  lemma {:induction false} CountAtLeast(workers: seq<Worker>, w: nat, weight: Weight)
    requires w < |workers|
    ensures Count(workers, weight) >= Weigh(weight, workers[w])
  {
    if w > 0 {
      CountAtLeast(workers[1..], w - 1, weight);
    }
  }

  // ---------------------------------------------------------------------------------------------
  // The invariant
  // ---------------------------------------------------------------------------------------------

  ghost function Tickets(n: nat): (r: seq<nat>)
    ensures |r| == n && forall k :: 0 <= k < n ==> r[k] == k
  {
    seq(n, k => k)
  }

  ghost predicate TaskAccounted(s: Pool, t: nat) {
    multiset(s.dequeued)[t] == Count(s.workers, Holding(t)) + multiset(s.done)[t]
  }

  /** Accepted tasks leave in order, and each that left is held by one worker or finished. */
  ghost predicate Conserved(s: Pool) {
    && s.dequeued + s.queue == Tickets(s.accepted)
    && (forall t: nat :: TaskAccounted(s, t))
    && s.activeCount == Count(s.workers, Active)
  }

  /** While a worker sleeps, every queued task has a notification in flight or a worker on its way. */
  ghost predicate NoLostWakeUp(s: Pool) {
    SomeAsleep(s) ==> |s.queue| <= s.notifiers + Count(s.workers, OnItsWay)
  }

  ghost predicate Stopping(s: Pool) {
    && (s.stop <==> s.shutdown != NotCalled)
    && (s.shutdown in {Notified, Returned} ==> !SomeAsleep(s))
    && (s.shutdown == Returned ==> AllExited(s))
    && (forall w :: 0 <= w < |s.workers| && s.workers[w] == Exited ==> s.stop && s.queue == [])
  }

  ghost predicate Inv(s: Pool) {
    Conserved(s) && NoLostWakeUp(s) && Stopping(s)
  }

  lemma InvHoldsInitially(workers: nat)
    ensures Inv(Create(workers))
  {
    var created := Create(workers).workers;
    forall t: nat ensures Count(created, Holding(t)) == 0 {
      CountZero(created, Holding(t));
    }
    CountZero(created, Active);
  }

  /** The worker a step moves, if it moves exactly one. */
  ghost function Moved(s: Pool, step: Step): (r: Option<nat>)
    requires Enabled(s, step)
    ensures r.Some? ==> r.value < |s.workers|
    ensures r.Some? ==> Apply(s, step).workers == s.workers[r.value := Apply(s, step).workers[r.value]]
    ensures r.None? ==> step == NotifyAll || Apply(s, step).workers == s.workers
  {
    if step in {Submit, SetStop, NotifyAll, Join} || (step.NotifyOne? && !SomeAsleep(s)) then None
    else Some(step.w)
  }

  lemma StepConserves(s: Pool, step: Step)
    requires Inv(s) && Enabled(s, step)
    ensures Conserved(Apply(s, step))
  {
    var s' := Apply(s, step);
    assert s'.dequeued + s'.queue == if step == Submit then s.dequeued + s.queue + [s.accepted]
           else s.dequeued + s.queue;
    StepConservesActive(s, step);
    forall t: nat
      ensures TaskAccounted(s', t)
    {
      StepConservesTask(s, step, t);
    }
  }

  lemma StepConservesActive(s: Pool, step: Step)
    requires Inv(s) && Enabled(s, step)
    ensures Apply(s, step).activeCount == Count(Apply(s, step).workers, Active)
  {
    var s' := Apply(s, step);
    if step == NotifyAll {
      CountSame(s.workers, s'.workers, Active);
    } else if Moved(s, step).Some? {
      var w := Moved(s, step).value;
      CountMove(s.workers, w, s'.workers[w], Active);
      CountAtLeast(s.workers, w, Active);
    }
  }

  lemma AppendOnce(s: seq<nat>, x: nat, t: nat)
    ensures multiset(s + [x])[t] == multiset(s)[t] + if x == t then 1 else 0
  {
  }

  lemma FetchConservesTask(s: Pool, w: nat, t: nat)
    requires TaskAccounted(s, t) && Enabled(s, Fetch(w))
    ensures TaskAccounted(Apply(s, Fetch(w)), t)
  {
    var s' := Apply(s, Fetch(w));
    CountMove(s.workers, w, s'.workers[w], Holding(t));
    if s.queue != [] {
      AppendOnce(s.dequeued, s.queue[0], t);
    }
  }

  lemma RunConservesTask(s: Pool, w: nat, t: nat)
    requires TaskAccounted(s, t) && Enabled(s, Run(w))
    ensures TaskAccounted(Apply(s, Run(w)), t)
  {
    var s' := Apply(s, Run(w));
    CountMove(s.workers, w, s'.workers[w], Holding(t));
    AppendOnce(s.done, s.workers[w].task, t);
  }

  lemma StepConservesTask(s: Pool, step: Step, t: nat)
    requires TaskAccounted(s, t) && Enabled(s, step)
    ensures TaskAccounted(Apply(s, step), t)
  {
    var s' := Apply(s, step);
    if step.Fetch? {
      FetchConservesTask(s, step.w, t);
    } else if step.Run? {
      RunConservesTask(s, step.w, t);
    } else {
      assert s'.dequeued == s.dequeued && s'.done == s.done;
      if step == NotifyAll {
        CountSame(s.workers, s'.workers, Holding(t));
      } else if Moved(s, step).Some? {
        var w := Moved(s, step).value;
        CountMove(s.workers, w, s'.workers[w], Holding(t));
        assert Weigh(Holding(t), s.workers[w]) == Weigh(Holding(t), s'.workers[w]);
      }
    }
  }

  lemma StepKeepsWakeUps(s: Pool, step: Step)
    requires Inv(s) && Enabled(s, step)
    ensures NoLostWakeUp(Apply(s, step))
  {
    var s' := Apply(s, step);
    if Moved(s, step).Some? {
      var w := Moved(s, step).value;
      CountMove(s.workers, w, s'.workers[w], OnItsWay);
      if v :| 0 <= v < |s'.workers| && s'.workers[v] == Asleep {
        assert v != w ==> s.workers[v] == Asleep;
      }
    }
  }

  lemma StepKeepsStopping(s: Pool, step: Step)
    requires Inv(s) && Enabled(s, step)
    ensures Stopping(Apply(s, step))
  {
    var s' := Apply(s, step);
    if v :| 0 <= v < |s'.workers| && s'.workers[v] == Asleep {
      assert s.workers[v] == Asleep || step == Fetch(v);
    }
  }

  lemma {:induction false} InvAlways(s: Pool, steps: seq<Step>)
    requires Inv(s)
    ensures Inv(Exec(s, steps)) && |Exec(s, steps).workers| == |s.workers|
    decreases |steps|
  {
    if steps != [] {
      if Enabled(s, steps[0]) {
        StepConserves(s, steps[0]);
        StepKeepsWakeUps(s, steps[0]);
        StepKeepsStopping(s, steps[0]);
        InvAlways(Apply(s, steps[0]), steps[1..]);
      } else {
        InvAlways(s, steps[1..]);
      }
    }
  }

  lemma ReachableInv(workers: nat, s: Pool)
    requires Reachable(workers, s)
    ensures Inv(s) && |s.workers| == workers
  {
    var steps :| s == Exec(Create(workers), steps);
    InvHoldsInitially(workers);
    InvAlways(Create(workers), steps);
  }

  // ---------------------------------------------------------------------------------------------
  // Safety
  // ---------------------------------------------------------------------------------------------

  lemma TicketOnce(n: nat, t: nat)
    ensures multiset(Tickets(n))[t] == if t < n then 1 else 0
  {
    var all := Tickets(n);
    if t < n {
      assert all == all[..t] + [t] + all[t + 1..];
      assert t !in all[..t] && t !in all[t + 1..];
    } else {
      assert t !in all;
    }
  }

  /** In every interleaving each accepted task is in exactly one place: queued, held by one worker, or
      done once; and tasks leave the queue in the order they were accepted. */
  lemma TasksAreConserved(workers: nat, s: Pool)
    requires Reachable(workers, s)
    ensures forall t: nat ::
              multiset(s.queue)[t] + Count(s.workers, Holding(t)) + multiset(s.done)[t]
              == if t < s.accepted then 1 else 0
    ensures s.dequeued == Tickets(|s.dequeued|)
  {
    ReachableInv(workers, s);
    forall t: nat
      ensures TaskAccounted(s, t)
      ensures multiset(s.queue)[t] + Count(s.workers, Holding(t)) + multiset(s.done)[t] == if t < s.accepted then 1
              else 0
    {
      TicketOnce(s.accepted, t);
      assert multiset(s.dequeued + s.queue)[t] == multiset(s.dequeued)[t] + multiset(s.queue)[t];
    }
    assert s.dequeued == (s.dequeued + s.queue)[..|s.dequeued|];
  }

  ghost predicate AllDone(s: Pool) {
    forall t :: 0 <= t < s.accepted ==> t in s.done
  }

  /** When `Shutdown` returns, every accepted task is done and `WaitForEmpty` has nothing to wait for;
      a pool without workers returns at once and leaves everything queued. */
  lemma ShutdownDrains(workers: nat, s: Pool)
    requires Reachable(workers, s) && s.shutdown == Returned
    ensures s.activeCount == 0
    ensures AllDone(s) <==> workers > 0 || s.accepted == 0
  {
    ReachableInv(workers, s);
    TasksAreConserved(workers, s);
    CountZero(s.workers, Active);
    forall t: nat ensures Count(s.workers, Holding(t)) == 0 {
      CountZero(s.workers, Holding(t));
    }
    if workers > 0 {
      assert s.workers[0] == Exited;
      forall t: nat | t < s.accepted
        ensures t in s.done
      {
        assert multiset(s.done)[t] == 1;
      }
    } else {
      NoWorkersNoWork(s);
      if s.accepted > 0 {
        assert 0 !in s.done;
      }
    }
  }

  /** Without workers nothing is ever done. */
  lemma NoWorkersNoWork(s: Pool)
    requires Reachable(0, s)
    ensures s.done == []
  {
    var steps :| s == Exec(Create(0), steps);
    NothingDone(Create(0), steps);
  }

  lemma {:induction false} NothingDone(s: Pool, steps: seq<Step>)
    requires s.workers == [] && s.done == []
    ensures Exec(s, steps).done == []
    decreases |steps|
  {
    if steps != [] {
      NothingDone(if Enabled(s, steps[0]) then Apply(s, steps[0]) else s, steps[1..]);
    }
  }

  /** `WaitForEmpty` looks at the active count only: with that at 0, all accepted tasks are done exactly
      if the queue is empty and no worker stands between its pop and its increment. */
  lemma IdleIsNotEmpty(workers: nat, s: Pool)
    requires Reachable(workers, s) && s.activeCount == 0
    ensures AllDone(s) <==> s.queue == [] && forall w :: 0 <= w < |s.workers| ==> !s.workers[w].Fetched?
  {
    ReachableInv(workers, s);
    TasksAreConserved(workers, s);
    if s.queue == [] && forall w :: 0 <= w < |s.workers| ==> !s.workers[w].Fetched? {
      forall t: nat | t < s.accepted
        ensures t in s.done
      {
        forall w | 0 <= w < |s.workers|
          ensures Weigh(Holding(t), s.workers[w]) == 0
        {
          CountAtLeast(s.workers, w, Active);
        }
        CountZero(s.workers, Holding(t));
        assert multiset(s.done)[t] == 1;
      }
    } else if s.queue != [] {
      var t := s.queue[0];
      assert (s.dequeued + s.queue)[|s.dequeued|] == t;
      assert t in multiset(s.queue);
      assert multiset(s.queue)[t] + Count(s.workers, Holding(t)) + multiset(s.done)[t] <= 1;
      assert t < s.accepted && t !in s.done;
    } else {
      var w: nat :| w < |s.workers| && s.workers[w].Fetched?;
      var t := s.workers[w].task;
      CountAtLeast(s.workers, w, Holding(t));
      assert multiset(s.queue)[t] + Count(s.workers, Holding(t)) + multiset(s.done)[t] <= 1;
      assert t < s.accepted && t !in s.done;
    }
  }

  /** A submitted task that no worker has seen yet: `WaitForEmpty` would return true. */
  lemma WaitForEmptyCanReturnEarly()
    ensures exists s :: Reachable(1, s) && s.activeCount == 0 && s.accepted == 1 && s.done == []
  {
    var s := Apply(Create(1), Submit);
    assert Exec(s, []) == s;
    assert s == Exec(Create(1), [Submit]);
    assert Reachable(1, s);
  }

  // ---------------------------------------------------------------------------------------------
  // Liveness
  // ---------------------------------------------------------------------------------------------

  /** A non-empty queue with no notification in flight finds a worker that is awake. */
  lemma QueuedWorkFindsAWorker(workers: nat, s: Pool)
    requires Reachable(workers, s) && workers > 0
    requires s.queue != [] && s.notifiers == 0
    ensures exists w :: 0 <= w < |s.workers| && s.workers[w] != Asleep && s.workers[w] != Exited
    ensures SomeAsleep(s) ==> exists w :: 0 <= w < |s.workers| && s.workers[w] == Fetching
  {
    ReachableInv(workers, s);
    if forall w :: 0 <= w < |s.workers| ==> s.workers[w] != Fetching {
      CountZero(s.workers, OnItsWay);
    }
    assert s.workers[0] != Exited;
  }

  ghost function Phase(p: Shutdown): nat {
    match p
    case NotCalled => 3
    case Flagged => 2
    case Notified => 1
    case Returned => 0
  }

  /** What is left to do once `stop_` is set. */
  ghost function Remaining(s: Pool): nat {
    5 * |s.queue| + Count(s.workers, Distance) + s.notifiers + Phase(s.shutdown)
  }

  lemma {:induction false} CountMonotone(a: seq<Worker>, b: seq<Worker>, weight: Weight)
    requires |a| == |b| && forall w :: 0 <= w < |a| ==> Weigh(weight, a[w]) <= Weigh(weight, b[w])
    ensures Count(a, weight) <= Count(b, weight)
  {
    if a != [] {
      CountMonotone(a[1..], b[1..], weight);
    }
  }

  /** The worker that a step moves, the queue and the notifications come closer to the end. */
  lemma MoveIsProgress(s: Pool, step: Step)
    requires s.stop && Enabled(s, step) && Moved(s, step).Some?
    ensures var s', w := Apply(s, step), Moved(s, step).value;
            && 5 * |s'.queue| + Weigh(Distance, s'.workers[w]) + s'.notifiers
               < 5 * |s.queue| + Weigh(Distance, s.workers[w]) + s.notifiers
            && s'.shutdown == s.shutdown
  {
  }

  lemma NotifyAllIsProgress(s: Pool)
    requires Enabled(s, NotifyAll)
    ensures Remaining(Apply(s, NotifyAll)) < Remaining(s)
  {
    CountMonotone(Apply(s, NotifyAll).workers, s.workers, Distance);
  }

  lemma StoppedStepIsProgress(s: Pool, step: Step)
    requires Stopping(s) && s.stop && Enabled(s, step)
    ensures Remaining(Apply(s, step)) < Remaining(s)
  {
    if step == NotifyAll {
      NotifyAllIsProgress(s);
    } else if Moved(s, step).Some? {
      hide Apply;
      var w, s' := Moved(s, step).value, Apply(s, step);
      MoveIsProgress(s, step);
      CountMove(s.workers, w, s'.workers[w], Distance);
    } else {
      assert step.NotifyOne? || step == Join;
    }
  }

  lemma NobodyFallsAsleep(s: Pool, step: Step)
    requires s.stop && Enabled(s, step)
    ensures forall w :: 0 <= w < |s.workers| && Apply(s, step).workers[w] == Asleep ==> s.workers[w] == Asleep
    ensures Apply(s, step).stop
  {
  }

  /** After `stop_` every step that is possible brings the pool closer to the end, and puts no worker
      to sleep. */
  lemma StoppedPoolProgresses(s: Pool, step: Step)
    requires Inv(s) && s.stop && Enabled(s, step)
    ensures Remaining(Apply(s, step)) < Remaining(s)
    ensures forall w :: 0 <= w < |s.workers| && Apply(s, step).workers[w] == Asleep ==> s.workers[w] == Asleep
    ensures Apply(s, step).stop
  {
    hide Conserved, NoLostWakeUp, Remaining, Apply;
    StoppedStepIsProgress(s, step);
    NobodyFallsAsleep(s, step);
  }

  /** All of `steps` are possible one after the other. */
  ghost predicate AllEnabled(s: Pool, steps: seq<Step>)
    decreases |steps|
  {
    steps == [] || (Enabled(s, steps[0]) && AllEnabled(Apply(s, steps[0]), steps[1..]))
  }

  /** No schedule of a stopped pool is longer than `Remaining`. */
  lemma {:induction false} StoppedPoolTerminates(s: Pool, steps: seq<Step>)
    requires Inv(s) && s.stop && AllEnabled(s, steps)
    ensures |steps| <= Remaining(s)
    decreases |steps|
  {
    if steps != [] {
      StoppedPoolProgresses(s, steps[0]);
      StepConserves(s, steps[0]);
      StepKeepsWakeUps(s, steps[0]);
      StepKeepsStopping(s, steps[0]);
      StoppedPoolTerminates(Apply(s, steps[0]), steps[1..]);
    }
  }

  /** A stopped pool whose `Shutdown` has not returned can always move: together with the bound above,
      `Shutdown` returns in every schedule. */
  lemma StoppedPoolCanMove(s: Pool) returns (step: Step)
    requires Inv(s) && s.stop && s.shutdown != Returned
    ensures Enabled(s, step) && !step.SpuriousWake?
  {
    if s.shutdown == Flagged {
      step := NotifyAll;
    } else if AllExited(s) {
      step := Join;
    } else {
      var w: nat :| w < |s.workers| && s.workers[w] != Exited;
      match s.workers[w]
      case Fetching => step := Fetch(w);
      case Fetched(_) => step := Begin(w);
      case Running(_) => step := Run(w);
      case Ran(_) => step := End(w);
      case _ => step := Signal(w);
    }
  }

  // ---------------------------------------------------------------------------------------------
  // The sections as methods
  // ---------------------------------------------------------------------------------------------

  class ThreadPool {
    var tasks: seq<nat>
    var stop: bool
    var activeCount: nat
    /** The threads, and what they did so far. */
    ghost var workers: seq<Worker>
    ghost var accepted: nat
    ghost var notifiers: nat
    ghost var shutdown: Shutdown
    ghost var dequeued: seq<nat>
    ghost var done: seq<nat>

    constructor (numThreads: nat)
      ensures State() == Create(numThreads)
    {
      tasks, stop, activeCount := [], false, 0;
      workers, accepted, notifiers, shutdown, dequeued, done := seq(numThreads, _ => Fetching), 0, 0, NotCalled, [], [];
    }

    ghost function State(): Pool
      reads this
    {
      Pool(workers, tasks, accepted, notifiers, stop, shutdown, activeCount, dequeued, done)
    }

    /** `Submit` under `queue_mutex_`; the task is dropped once the pool stops. */
    method SubmitSection(task: nat) returns (queued: bool)
      requires task == accepted
      modifies this
      ensures queued == Enabled(old(State()), Submit)
      ensures State() == if queued then Apply(old(State()), Submit) else old(State())
    {
      if stop {
        return false;
      }
      tasks := tasks + [task];
      accepted, notifiers := accepted + 1, notifiers + 1;
      queued := true;
    }

    /** A worker under `queue_mutex_`: it takes a task, leaves, or goes to sleep. */
    method FetchSection(ghost w: nat) returns (task: Option<nat>, leaves: bool)
      requires Enabled(State(), Fetch(w))
      modifies this
      ensures State() == Apply(old(State()), Fetch(w))
      ensures task == (if old(tasks) != [] then Some(old(tasks)[0]) else None) && leaves == (old(tasks) == [] && stop)
    {
      task, leaves := None, false;
      if !(stop || tasks != []) {
        workers := workers[w := Asleep];
        return;
      }
      if stop && tasks == [] {
        workers := workers[w := Exited];
        leaves := true;
        return;
      }
      task := Some(tasks[0]);
      tasks := tasks[1..];
      workers, dequeued := workers[w := Fetched(task.value)], dequeued + [task.value];
    }

    method CountUpSection(ghost w: nat)
      requires Enabled(State(), Begin(w))
      modifies this
      ensures State() == Apply(old(State()), Begin(w))
    {
      activeCount := activeCount + 1;
      workers := workers[w := Running(workers[w].task)];
    }

    method CountDownSection(ghost w: nat)
      requires Enabled(State(), End(w)) && activeCount > 0
      modifies this
      ensures State() == Apply(old(State()), End(w))
    {
      activeCount := activeCount - 1;
      workers := workers[w := Signalling];
    }

    method StopSection()
      requires Enabled(State(), SetStop)
      modifies this
      ensures State() == Apply(old(State()), SetStop)
    {
      stop := true;
      shutdown := Flagged;
    }
  }

  /** The count that `CountDownSection` lowers is never zero there. */
  lemma CountedWorkersCount(workers: nat, s: Pool, w: nat)
    requires Reachable(workers, s) && Enabled(s, End(w))
    ensures s.activeCount > 0
  {
    ReachableInv(workers, s);
    CountAtLeast(s.workers, w, Active);
  }
}
