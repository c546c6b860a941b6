/** `TaskRuntime::Stop` (src/task/task_runtime.cpp): the poll threads and the jobs of `TaskRuntime` run
    together with the workers of `ThreadPool`.

    The job that was submitted as the n-th is task n of the pool; what it does happens while a worker runs
    it, and the worker goes on when it is finished.  `Stop` clears the flag, joins the poll threads and
    then shuts the pool down.
  */
module TaskShutdown {
  import Pool = ThreadPool
  import Runtime = TaskRuntime

  datatype System = System(runtime: Runtime.Runtime, pool: Pool.Pool)

  datatype Step =
    | Acts(act: Runtime.Step)   // a poll thread, a job or the owner
    | Submits(agent: string)    // a poll thread hands its task to the pool
    | Works(work: Pool.Step)    // the pool

  function Start(agents: set<string>, workers: nat): System {
    System(Runtime.Start(agents), Pool.Create(workers))
  }

  /** Some worker runs this job. */
  ghost predicate IsRun(s: System, j: nat) {
    exists w :: 0 <= w < |s.pool.workers| && s.pool.workers[w] == Pool.Running(j)
  }

  predicate IsFinished(s: System, j: nat) {
    Runtime.JobAt(s.runtime, j, Runtime.Finished)
  }

  /** A step of a job is one of the job that a worker runs. */
  ghost predicate IsAtWork(s: System, step: Runtime.Step) {
    match step
    case Begin(j) => IsRun(s, j)
    case Release(j, _) => IsRun(s, j)
    case Throw(j) => IsRun(s, j)
    case Finish(j) => IsRun(s, j)
    case _ => true
  }

  ghost predicate Enabled(s: System, step: Step) {
    match step
    case Acts(act) => !act.Submit? && Runtime.Enabled(s.runtime, act) && IsAtWork(s, act)
    case Submits(a) => Runtime.Enabled(s.runtime, Runtime.Submit(a))
    case Works(work) =>
      && !work.Submit? && Pool.Enabled(s.pool, work)
      && (work.Run? ==> IsFinished(s, s.pool.workers[work.w].task))
      && (work.SetStop? ==> !s.runtime.running && Runtime.AllExited(s.runtime))
  }

  /** A stopped pool drops the task. */
  function Accepted(pool: Pool.Pool): Pool.Pool {
    if Pool.Enabled(pool, Pool.Submit) then Pool.Apply(pool, Pool.Submit) else pool
  }

  ghost function Apply(s: System, step: Step): System
    requires Enabled(s, step)
  {
    match step
    case Acts(act) => s.(runtime := Runtime.Apply(s.runtime, act))
    case Submits(a) => System(Runtime.Apply(s.runtime, Runtime.Submit(a)), Accepted(s.pool))
    case Works(work) => s.(pool := Pool.Apply(s.pool, work))
  }

  ghost function Exec(s: System, steps: seq<Step>): System
    decreases |steps|
  {
    if steps == [] then s else Exec(if Enabled(s, steps[0]) then Apply(s, steps[0]) else s, steps[1..])
  }

  // ---------------------------------------------------------------------------------------------
  // What every step keeps
  // ---------------------------------------------------------------------------------------------

  ghost predicate Inv(s: System, workers: nat) {
    && Pool.Reachable(workers, s.pool) && Runtime.SlotsAreHeld(s.runtime)
    && s.pool.accepted == |s.runtime.jobs|
    && (forall t :: t in s.pool.done ==> IsFinished(s, t))
    && (s.pool.stop ==> Runtime.AllExited(s.runtime))
  }

  lemma {:induction false} PoolExecAppend(s: Pool.Pool, steps: seq<Pool.Step>, step: Pool.Step)
    requires Pool.Enabled(Pool.Exec(s, steps), step)
    ensures Pool.Exec(s, steps + [step]) == Pool.Apply(Pool.Exec(s, steps), step)
    decreases |steps|
  {
    var all := steps + [step];
    if steps == [] {
      assert all[1..] == [];
    } else {
      assert all[1..] == steps[1..] + [step];
      PoolExecAppend(if Pool.Enabled(s, steps[0]) then Pool.Apply(s, steps[0]) else s, steps[1..], step);
    }
  }

  lemma PoolStepReaches(workers: nat, pool: Pool.Pool, step: Pool.Step)
    requires Pool.Reachable(workers, pool) && Pool.Enabled(pool, step)
    ensures Pool.Reachable(workers, Pool.Apply(pool, step))
  {
    var steps :| pool == Pool.Exec(Pool.Create(workers), steps);
    PoolExecAppend(Pool.Create(workers), steps, step);
  }

  /** Finished jobs stay so, and threads that left stay away. */
  lemma RuntimeStepKeeps(r: Runtime.Runtime, step: Runtime.Step)
    requires Runtime.Enabled(r, step)
    ensures var r' := Runtime.Apply(r, step);
            && |r'.jobs| == |r.jobs| + (if step.Submit? then 1 else 0)
            && (forall j: nat :: Runtime.JobAt(r, j, Runtime.Finished) ==> Runtime.JobAt(r', j, Runtime.Finished))
            && (Runtime.AllExited(r) ==> Runtime.AllExited(r') && !step.Submit?)
  {
  }

  /** The pool's side of a step: tasks that get done are those that a worker ran. */
  lemma PoolStepKeeps(pool: Pool.Pool, step: Pool.Step)
    requires Pool.Enabled(pool, step)
    ensures var pool' := Pool.Apply(pool, step);
            && pool'.accepted == pool.accepted + (if step.Submit? then 1 else 0)
            && pool'.stop == (pool.stop || step.SetStop?)
            && pool'.done == pool.done + if step.Run? then [pool.workers[step.w].task] else []
  {
  }

  lemma ActKeepsInv(s: System, workers: nat, act: Runtime.Step)
    requires Inv(s, workers) && Enabled(s, Acts(act))
    ensures Inv(Apply(s, Acts(act)), workers)
  {
    Runtime.StepKeepsHeld(s.runtime, act);
    RuntimeStepKeeps(s.runtime, act);
  }

  lemma SubmitKeepsInv(s: System, workers: nat, a: string)
    requires Inv(s, workers) && Enabled(s, Submits(a))
    ensures Inv(Apply(s, Submits(a)), workers)
  {
    Runtime.StepKeepsHeld(s.runtime, Runtime.Submit(a));
    RuntimeStepKeeps(s.runtime, Runtime.Submit(a));
    PoolStepReaches(workers, s.pool, Pool.Submit);
    PoolStepKeeps(s.pool, Pool.Submit);
  }

  lemma WorkKeepsInv(s: System, workers: nat, work: Pool.Step)
    requires Inv(s, workers) && Enabled(s, Works(work))
    ensures Inv(Apply(s, Works(work)), workers)
  {
    PoolStepReaches(workers, s.pool, work);
    PoolStepKeeps(s.pool, work);
  }

  lemma StepKeepsInv(s: System, workers: nat, step: Step)
    requires Inv(s, workers) && Enabled(s, step)
    ensures Inv(Apply(s, step), workers)
  {
    match step
    case Acts(act) => ActKeepsInv(s, workers, act);
    case Submits(a) => SubmitKeepsInv(s, workers, a);
    case Works(work) => WorkKeepsInv(s, workers, work);
  }

  lemma {:induction false} InvAlways(s: System, workers: nat, steps: seq<Step>)
    requires Inv(s, workers)
    ensures Inv(Exec(s, steps), workers)
    decreases |steps|
  {
    if steps != [] {
      if Enabled(s, steps[0]) {
        StepKeepsInv(s, workers, steps[0]);
        InvAlways(Apply(s, steps[0]), workers, steps[1..]);
      } else {
        InvAlways(s, workers, steps[1..]);
      }
    }
  }

  lemma StartKeepsInv(agents: set<string>, workers: nat)
    ensures Inv(Start(agents, workers), workers)
  {
    assert Pool.Create(workers) == Pool.Exec(Pool.Create(workers), []);
  }

  // ---------------------------------------------------------------------------------------------
  // What `Stop` leaves
  // ---------------------------------------------------------------------------------------------

  /** In every run, late exceptions included: when the pool of at least one worker has shut down, every job that
      was submitted is finished and no agent has a slot. */
  lemma StopLeavesNothing(agents: set<string>, workers: nat, steps: seq<Step>)
    requires workers > 0
    ensures var s := Exec(Start(agents, workers), steps);
            s.pool.shutdown == Pool.Returned ==>
              && s.runtime.active == map[]
              && forall j :: 0 <= j < |s.runtime.jobs| ==> s.runtime.jobs[j].phase == Runtime.Finished
  {
    var s := Exec(Start(agents, workers), steps);
    StartKeepsInv(agents, workers);
    InvAlways(Start(agents, workers), workers, steps);
    if s.pool.shutdown == Pool.Returned {
      Pool.ShutdownDrains(workers, s.pool);
      Pool.ReachableInv(workers, s.pool);
      forall j | 0 <= j < |s.runtime.jobs|
        ensures s.runtime.jobs[j].phase == Runtime.Finished
      {
        assert j in s.pool.done;
      }
      Runtime.NothingIsHeld(s.runtime);
    }
  }
}
