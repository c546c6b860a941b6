/** How poll threads and pool workers share `active_tasks_` and `claimed_task_ids_`
    (src/task/task_runtime.cpp), as steps at lock granularity, without the timeout watchdog.

    One poll thread runs for each auto-claim agent.  A claimed task becomes a job of the pool; what a
    job does between its lock sections is left open.  As in `ThreadPool`, a step that is not possible
    where it is tried changes nothing, so a run is any list of steps.
  */
module TaskRuntime {
  import opened Options

  /** Where a poll thread is in `AgentPollLoop`. */
  datatype Poll =
    | Idle                   // at the loop head or sleeping
    | Asking                 // saw no pending task, inside `ClaimNextTask`
    | Answered(task: string) // holds a claim, about to lock `mutex_`
    | Recorded(task: string) // took the slot, about to submit
    | Exited

  /** Where a pool task is in `ExecuteClaimedTask`. */
  datatype Phase =
    | Queued
    | Executing
    | Released // gave the slot up, still reporting inside the `try` block
    | Failing  // threw, cleared the slot, reporting in a catch block
    | Finished

  datatype Job = Job(agent: string, task: string, phase: Phase)

  datatype Runtime = Runtime(
    running: bool,
    polls: map<string, Poll>,
    jobs: seq<Job>,
    active: map<string, string>,  // active_tasks_: agent to task id
    claimed: set<string>,         // claimed_task_ids_
    waiting: map<string, string>) // waiting_tasks_: key to local agent

  datatype Step =
    | Check(agent: string)
    | Claim(agent: string, reply: Option<string>)
    | Record(agent: string)
    | Submit(agent: string)
    | Begin(j: nat)
    | Release(j: nat, parkUnder: Option<string>) // `ClearActiveTask`, or filing a waiting task
    | Throw(j: nat)                              // an exception, also one after the release, reaches a catch block
    | Finish(j: nat)
    | EditWaiting(waiting: map<string, string>)  // replies and observers, at any time
    | Stop

  function Start(agents: set<string>): Runtime {
    Runtime(true, map a | a in agents :: Idle, [], map[], {}, map[])
  }

  predicate PollAt(s: Runtime, a: string, p: Poll) {
    a in s.polls && s.polls[a] == p
  }

  predicate JobAt(s: Runtime, j: nat, p: Phase) {
    j < |s.jobs| && s.jobs[j].phase == p
  }

  predicate Enabled(s: Runtime, step: Step) {
    match step
    case Check(a) => PollAt(s, a, Idle)
    case Claim(a, _) => PollAt(s, a, Asking)
    case Record(a) => a in s.polls && s.polls[a].Answered?
    case Submit(a) => a in s.polls && s.polls[a].Recorded?
    case Begin(j) => JobAt(s, j, Queued)
    case Release(j, _) => JobAt(s, j, Executing)
    case Throw(j) => JobAt(s, j, Executing) || JobAt(s, j, Released)
    case Finish(j) => JobAt(s, j, Released) || JobAt(s, j, Failing)
    case EditWaiting(_) => true
    case Stop => true
  }

  predicate HasPendingTask(s: Runtime, a: string) {
    a in s.active || a in s.waiting.Values
  }

  function SetPoll(s: Runtime, a: string, p: Poll): Runtime {
    s.(polls := s.polls[a := p])
  }

  function SetPhase(s: Runtime, j: nat, p: Phase): Runtime
    requires j < |s.jobs|
  {
    s.(jobs := s.jobs[j := s.jobs[j].(phase := p)])
  }

  function ClearActive(s: Runtime, a: string): Runtime {
    s.(active := s.active - {a})
  }

  function Apply(s: Runtime, step: Step): Runtime
    requires Enabled(s, step)
  {
    match step
    case Check(a) =>
      if !s.running then SetPoll(s, a, Exited)
      else if HasPendingTask(s, a) then s
      else SetPoll(s, a, Asking)
    case Claim(a, reply) =>
      if reply.Some? && reply.value != "" then SetPoll(s, a, Answered(reply.value)) else SetPoll(s, a, Idle)
    case Record(a) =>
      var task := s.polls[a].task;
      if task in s.claimed then SetPoll(s, a, Idle)
      else SetPoll(s, a, Recorded(task)).(active := s.active[a := task], claimed := s.claimed + {task})
    case Submit(a) =>
      SetPoll(s, a, Idle).(jobs := s.jobs + [Job(a, s.polls[a].task, Queued)])
    case Begin(j) => SetPhase(s, j, Executing)
    case Release(j, parkUnder) =>
      var released := ClearActive(SetPhase(s, j, Released), s.jobs[j].agent);
      if parkUnder.Some? then released.(waiting := s.waiting[parkUnder.value := s.jobs[j].agent]) else released
    case Finish(j) => SetPhase(s, j, Finished)
    case Throw(j) => ClearActive(SetPhase(s, j, Failing), s.jobs[j].agent)
    case EditWaiting(waiting) => s.(waiting := waiting)
    case Stop => s.(running := false)
  }

  function Next(s: Runtime, step: Step): Runtime {
    if Enabled(s, step) then Apply(s, step) else s
  }

  function Exec(s: Runtime, steps: seq<Step>): Runtime
    decreases |steps|
  {
    if steps == [] then s else Exec(Next(s, steps[0]), steps[1..])
  }

  // ---------------------------------------------------------------------------------------------
  // No id twice: holds in every run, late exceptions included
  // ---------------------------------------------------------------------------------------------

  /** Agent `a` took the slot for `t` and has handed it, or is about to hand it, to the pool. */
  ghost predicate Took(s: Runtime, a: string, t: string) {
    PollAt(s, a, Recorded(t)) || exists j :: 0 <= j < |s.jobs| && s.jobs[j].agent == a && s.jobs[j].task == t
  }

  ghost predicate NoIdTwice(s: Runtime) {
    && (forall i, j :: 0 <= i < j < |s.jobs| ==> s.jobs[i].task != s.jobs[j].task)
    && (forall j :: 0 <= j < |s.jobs| ==> s.jobs[j].task in s.claimed && s.jobs[j].agent in s.polls)
    && (forall a :: a in s.polls && s.polls[a].Recorded? ==> s.polls[a].task in s.claimed)
    && (forall a, j :: a in s.polls && s.polls[a].Recorded? && 0 <= j < |s.jobs| ==> s.jobs[j].task != s.polls[a].task)
    && (forall a, b :: a in s.polls && b in s.polls && a != b && s.polls[a].Recorded? && s.polls[b].Recorded? ==>
          s.polls[a].task != s.polls[b].task)
    && (forall a :: a in s.active ==> Took(s, a, s.active[a]))
  }

  /** A step that only moves one job on, or frees one agent's slot. */
  lemma JobStepKeepsNoIdTwice(s: Runtime, j: nat, p: Phase)
    requires NoIdTwice(s) && j < |s.jobs|
    ensures NoIdTwice(SetPhase(s, j, p))
  {
    var s' := SetPhase(s, j, p);
    forall a | a in s'.active
      ensures Took(s', a, s'.active[a])
    {
      assert Took(s, a, s.active[a]);
      if i :| 0 <= i < |s.jobs| && s.jobs[i].agent == a && s.jobs[i].task == s.active[a] {
        assert s'.jobs[i].agent == a && s'.jobs[i].task == s.active[a];
      }
    }
  }

  lemma ClearKeepsNoIdTwice(s: Runtime, a: string)
    requires NoIdTwice(s)
    ensures NoIdTwice(ClearActive(s, a))
  {
    var s' := ClearActive(s, a);
    forall b | b in s'.active
      ensures Took(s', b, s'.active[b])
    {
      assert Took(s, b, s.active[b]);
    }
  }

  lemma PollStepKeepsNoIdTwice(s: Runtime, a: string, p: Poll)
    requires NoIdTwice(s) && a in s.polls && !s.polls[a].Recorded? && !p.Recorded?
    ensures NoIdTwice(SetPoll(s, a, p))
  {
    var s' := SetPoll(s, a, p);
    forall b | b in s'.active
      ensures Took(s', b, s'.active[b])
    {
      assert Took(s, b, s.active[b]);
    }
  }

  lemma RecordKeepsNoIdTwice(s: Runtime, a: string)
    requires NoIdTwice(s) && Enabled(s, Record(a))
    ensures NoIdTwice(Apply(s, Record(a)))
  {
    var s' := Apply(s, Record(a));
    if s.polls[a].task in s.claimed {
      PollStepKeepsNoIdTwice(s, a, Idle);
    } else {
      forall b | b in s'.active
        ensures Took(s', b, s'.active[b])
      {
        if b != a {
          assert Took(s, b, s.active[b]);
        }
      }
    }
  }

  lemma SubmitKeepsNoIdTwice(s: Runtime, a: string)
    requires NoIdTwice(s) && Enabled(s, Submit(a))
    ensures NoIdTwice(Apply(s, Submit(a)))
  {
    var s' := Apply(s, Submit(a));
    assert s'.jobs[|s.jobs|] == Job(a, s.polls[a].task, Queued);
    forall b | b in s'.active
      ensures Took(s', b, s'.active[b])
    {
      assert Took(s, b, s.active[b]);
      if i :| 0 <= i < |s.jobs| && s.jobs[i].agent == b && s.jobs[i].task == s.active[b] {
        assert s'.jobs[i] == s.jobs[i];
      }
    }
  }

  lemma StepKeepsNoIdTwice(s: Runtime, step: Step)
    requires NoIdTwice(s)
    ensures NoIdTwice(Next(s, step))
  {
    if Enabled(s, step) {
      match step
      case Check(a) =>
        if !(s.running && HasPendingTask(s, a)) {
          PollStepKeepsNoIdTwice(s, a, Apply(s, step).polls[a]);
        }
      case Claim(a, _) => PollStepKeepsNoIdTwice(s, a, Apply(s, step).polls[a]);
      case Record(a) => RecordKeepsNoIdTwice(s, a);
      case Submit(a) => SubmitKeepsNoIdTwice(s, a);
      case Begin(j) => JobStepKeepsNoIdTwice(s, j, Executing);
      case Release(j, parkUnder) =>
        JobStepKeepsNoIdTwice(s, j, Released);
        ClearKeepsNoIdTwice(SetPhase(s, j, Released), s.jobs[j].agent);
        WaitingIsFree(ClearActive(SetPhase(s, j, Released), s.jobs[j].agent), Apply(s, step).waiting);
      case Finish(j) => JobStepKeepsNoIdTwice(s, j, Finished);
      case Throw(j) =>
        JobStepKeepsNoIdTwice(s, j, Failing);
        ClearKeepsNoIdTwice(SetPhase(s, j, Failing), s.jobs[j].agent);
      case EditWaiting(waiting) => WaitingIsFree(s, waiting);
      case Stop =>
        forall a | a in s.active ensures Took(Apply(s, step), a, s.active[a]) { assert Took(s, a, s.active[a]); }
    }
  }

  lemma WaitingIsFree(s: Runtime, waiting: map<string, string>)
    requires NoIdTwice(s)
    ensures NoIdTwice(s.(waiting := waiting))
  {
    forall a | a in s.active ensures Took(s.(waiting := waiting), a, s.active[a]) { assert Took(s, a, s.active[a]); }
  }

  lemma {:induction false} NoIdTwiceAlways(s: Runtime, steps: seq<Step>)
    requires NoIdTwice(s)
    ensures NoIdTwice(Exec(s, steps))
    decreases |steps|
  {
    if steps != [] {
      StepKeepsNoIdTwice(s, steps[0]);
      NoIdTwiceAlways(Next(s, steps[0]), steps[1..]);
    }
  }

  /** Whatever the relay answers and however the threads interleave, no task id reaches the pool twice,
      active ids are claimed ids, and no two agents are active on one id. */
  lemma NoTaskIsSubmittedTwice(agents: set<string>, steps: seq<Step>)
    ensures var s := Exec(Start(agents), steps);
      && (forall i, j :: 0 <= i < j < |s.jobs| ==> s.jobs[i].task != s.jobs[j].task)
      && (forall a :: a in s.active ==> s.active[a] in s.claimed)
      && (forall a, b :: a in s.active && b in s.active && a != b ==> s.active[a] != s.active[b])
  {
    var s := Exec(Start(agents), steps);
    NoIdTwiceAlways(Start(agents), steps);
    forall a, b | a in s.active && b in s.active && a != b
      ensures s.active[a] != s.active[b]
    {
      assert Took(s, a, s.active[a]) && Took(s, b, s.active[b]);
    }
  }

  // ---------------------------------------------------------------------------------------------
  // The slot: exact as long as no late exception clears somebody else's
  // ---------------------------------------------------------------------------------------------

  ghost predicate HoldsSlot(job: Job, a: string) {
    job.agent == a && job.phase in {Queued, Executing}
  }

  /** `t` is a task of `a` that was submitted, or is being submitted, and has not released the slot. */
  ghost predicate Unreleased(s: Runtime, a: string, t: string) {
    PollAt(s, a, Recorded(t)) || exists j :: 0 <= j < |s.jobs| && HoldsSlot(s.jobs[j], a) && s.jobs[j].task == t
  }

  ghost predicate SlotIs(s: Runtime, a: string, t: string) {
    a in s.active && s.active[a] == t
  }

  ghost predicate SlotsExact(s: Runtime) {
    // the slot names the unreleased task, and nothing else
    && (forall a, t :: SlotIs(s, a, t) <==> Unreleased(s, a, t))
    // there is never a second one
    && (forall i, j :: 0 <= i < j < |s.jobs| && s.jobs[i].agent == s.jobs[j].agent ==>
          !(HoldsSlot(s.jobs[i], s.jobs[i].agent) && HoldsSlot(s.jobs[j], s.jobs[j].agent)))
    && (forall a, j :: a in s.polls && s.polls[a].Recorded? && 0 <= j < |s.jobs| ==> !HoldsSlot(s.jobs[j], a))
    // a thread that is on its way to claim found the slot free, and only it can fill it
    && (forall a :: a in s.polls && (s.polls[a] == Asking || s.polls[a].Answered?) ==> a !in s.active)
    && (forall j :: 0 <= j < |s.jobs| ==> s.jobs[j].agent in s.polls)
  }

  /** The second `ClearActiveTask` of a job finds no newer task in the slot. */
  ghost predicate Harmless(s: Runtime, step: Step) {
    Enabled(s, step) && step.Throw? && JobAt(s, step.j, Released) ==> s.jobs[step.j].agent !in s.active
  }

  lemma PollStepKeepsSlots(s: Runtime, a: string, p: Poll)
    requires SlotsExact(s) && a in s.polls && !s.polls[a].Recorded?
    requires p in {Idle, Exited} || (a !in s.active && !p.Recorded?)
    ensures SlotsExact(SetPoll(s, a, p))
  {
    var s' := SetPoll(s, a, p);
    forall b, t
      ensures SlotIs(s', b, t) <==> Unreleased(s', b, t)
    {
      assert SlotIs(s, b, t) <==> Unreleased(s, b, t);
    }
  }

  lemma RecordKeepsSlots(s: Runtime, a: string)
    requires SlotsExact(s) && Enabled(s, Record(a))
    ensures SlotsExact(Apply(s, Record(a)))
  {
    var s' := Apply(s, Record(a));
    if s.polls[a].task in s.claimed {
      PollStepKeepsSlots(s, a, Idle);
    } else {
      forall b, t
        ensures SlotIs(s', b, t) <==> Unreleased(s', b, t)
      {
        assert SlotIs(s, b, t) <==> Unreleased(s, b, t);
      }
      forall j | 0 <= j < |s.jobs|
        ensures !HoldsSlot(s.jobs[j], a)
      {
        assert !SlotIs(s, a, s.jobs[j].task);
      }
    }
  }

  lemma SubmitKeepsSlots(s: Runtime, a: string)
    requires SlotsExact(s) && Enabled(s, Submit(a))
    ensures SlotsExact(Apply(s, Submit(a)))
  {
    var s' := Apply(s, Submit(a));
    var task := s.polls[a].task;
    assert s'.jobs[|s.jobs|] == Job(a, task, Queued);
    forall b, t
      ensures SlotIs(s', b, t) <==> Unreleased(s', b, t)
    {
      assert SlotIs(s, b, t) <==> Unreleased(s, b, t);
      assert forall j :: 0 <= j < |s.jobs| ==> s'.jobs[j] == s.jobs[j];
    }
    assert SlotIs(s, a, task);
  }

  lemma BeginKeepsSlots(s: Runtime, j: nat)
    requires SlotsExact(s) && Enabled(s, Begin(j))
    ensures SlotsExact(Apply(s, Begin(j)))
  {
    var s' := Apply(s, Begin(j));
    assert forall i, a :: 0 <= i < |s.jobs| ==> (HoldsSlot(s'.jobs[i], a) <==> HoldsSlot(s.jobs[i], a));
    forall b, t
      ensures SlotIs(s', b, t) <==> Unreleased(s', b, t)
    {
      assert SlotIs(s, b, t) <==> Unreleased(s, b, t);
    }
  }

  lemma ReleaseKeepsSlots(s: Runtime, j: nat, p: Phase)
    requires SlotsExact(s) && JobAt(s, j, Executing) && p in {Released, Failing}
    ensures SlotsExact(ClearActive(SetPhase(s, j, p), s.jobs[j].agent))
  {
    var agent := s.jobs[j].agent;
    var s' := ClearActive(SetPhase(s, j, p), agent);
    assert HoldsSlot(s.jobs[j], agent);
    assert forall i, a :: 0 <= i < |s.jobs| && i != j ==> (HoldsSlot(s'.jobs[i], a) <==> HoldsSlot(s.jobs[i], a));
    assert forall i :: 0 <= i < |s.jobs| && i != j ==> !HoldsSlot(s.jobs[i], agent);
    forall b, t
      ensures SlotIs(s', b, t) <==> Unreleased(s', b, t)
    {
      assert SlotIs(s, b, t) <==> Unreleased(s, b, t);
    }
  }

  lemma FinishKeepsSlots(s: Runtime, j: nat, p: Phase)
    requires SlotsExact(s) && (JobAt(s, j, Released) || JobAt(s, j, Failing)) && p in {Failing, Finished}
    ensures SlotsExact(SetPhase(s, j, p))
  {
    var s' := SetPhase(s, j, p);
    assert forall i, a :: 0 <= i < |s.jobs| ==> (HoldsSlot(s'.jobs[i], a) <==> HoldsSlot(s.jobs[i], a));
    forall b, t
      ensures SlotIs(s', b, t) <==> Unreleased(s', b, t)
    {
      assert SlotIs(s, b, t) <==> Unreleased(s, b, t);
    }
  }

  /** Clearing an occupied slot for a job that no longer owns it loses the task that does. */
  lemma LateThrowBreaksSlots(s: Runtime, j: nat)
    requires SlotsExact(s) && JobAt(s, j, Released) && s.jobs[j].agent in s.active
    ensures !SlotsExact(Apply(s, Throw(j)))
  {
    var a := s.jobs[j].agent;
    var t := s.active[a];
    var s' := Apply(s, Throw(j));
    assert SlotIs(s, a, t) && Unreleased(s, a, t);
    assert forall i :: 0 <= i < |s.jobs| ==> (HoldsSlot(s'.jobs[i], a) <==> HoldsSlot(s.jobs[i], a));
    if i :| 0 <= i < |s.jobs| && HoldsSlot(s.jobs[i], a) && s.jobs[i].task == t {
      assert HoldsSlot(s'.jobs[i], a) && s'.jobs[i].task == t;
    }
    assert Unreleased(s', a, t) && !SlotIs(s', a, t);
  }

  lemma SlotsIgnoreRest(s: Runtime, s': Runtime)
    requires SlotsExact(s) && s'.polls == s.polls && s'.jobs == s.jobs && s'.active == s.active
    ensures SlotsExact(s')
  {
    forall b, t
      ensures SlotIs(s', b, t) <==> Unreleased(s', b, t)
    {
      assert SlotIs(s, b, t) <==> Unreleased(s, b, t);
    }
  }

  /** One step keeps the slots exact if and only if it is harmless. */
  lemma StepKeepsSlots(s: Runtime, step: Step)
    requires SlotsExact(s)
    ensures SlotsExact(Next(s, step)) <==> Harmless(s, step)
  {
    if Enabled(s, step) {
      match step
      case Check(a) =>
        if !(s.running && HasPendingTask(s, a)) {
          PollStepKeepsSlots(s, a, Apply(s, step).polls[a]);
        }
      case Claim(a, _) => PollStepKeepsSlots(s, a, Apply(s, step).polls[a]);
      case Record(a) => RecordKeepsSlots(s, a);
      case Submit(a) => SubmitKeepsSlots(s, a);
      case Begin(j) => BeginKeepsSlots(s, j);
      case Release(j, _) =>
        ReleaseKeepsSlots(s, j, Released);
        SlotsIgnoreRest(ClearActive(SetPhase(s, j, Released), s.jobs[j].agent), Apply(s, step));
      case Finish(j) => FinishKeepsSlots(s, j, Finished);
      case Throw(j) =>
        if s.jobs[j].phase == Executing {
          ReleaseKeepsSlots(s, j, Failing);
        } else if s.jobs[j].agent in s.active {
          LateThrowBreaksSlots(s, j);
        } else {
          FinishKeepsSlots(s, j, Failing);
          SlotsIgnoreRest(SetPhase(s, j, Failing), Apply(s, step));
        }
      case EditWaiting(_) => SlotsIgnoreRest(s, Apply(s, step));
      case Stop => SlotsIgnoreRest(s, Apply(s, step));
    }
  }

  ghost predicate AlwaysExact(s: Runtime, steps: seq<Step>)
    decreases |steps|
  {
    SlotsExact(s) && (steps != [] ==> AlwaysExact(Next(s, steps[0]), steps[1..]))
  }

  ghost predicate AlwaysHarmless(s: Runtime, steps: seq<Step>)
    decreases |steps|
  {
    steps != [] ==> Harmless(s, steps[0]) && AlwaysHarmless(Next(s, steps[0]), steps[1..])
  }

  lemma {:induction false} ExactIffHarmless(s: Runtime, steps: seq<Step>)
    requires SlotsExact(s)
    ensures AlwaysExact(s, steps) <==> AlwaysHarmless(s, steps)
    decreases |steps|
  {
    if steps != [] {
      StepKeepsSlots(s, steps[0]);
      if Harmless(s, steps[0]) {
        ExactIffHarmless(Next(s, steps[0]), steps[1..]);
      }
    }
  }

  /** At every point of a run the slot of each agent names exactly its one unreleased task, if and only
      if no job throws after its release while a newer task of its agent is active. */
  lemma SlotsAreExactIffNoHarmfulThrow(agents: set<string>, steps: seq<Step>)
    ensures AlwaysExact(Start(agents), steps) <==> AlwaysHarmless(Start(agents), steps)
  {
    ExactIffHarmless(Start(agents), steps);
  }

  lemma {:induction false} ExecAppend(s: Runtime, first: seq<Step>, second: seq<Step>)
    ensures Exec(s, first + second) == Exec(Exec(s, first), second)
    decreases |first|
  {
    if first == [] {
      assert first + second == second;
    } else {
      assert (first + second)[0] == first[0] && (first + second)[1..] == first[1..] + second;
      ExecAppend(Next(s, first[0]), first[1..], second);
    }
  }

  /** The steps by which one agent claims `t` and hands it to the pool. */
  function ClaimSteps(a: string, t: string): seq<Step> {
    [Check(a), Claim(a, Some(t)), Record(a), Submit(a)]
  }

  lemma ClaimEffect(s: Runtime, a: string, t: string)
    requires s.running && PollAt(s, a, Idle) && !HasPendingTask(s, a) && t != "" && t !in s.claimed
    ensures Exec(s, ClaimSteps(a, t)) ==
            s.(jobs := s.jobs + [Job(a, t, Queued)], active := s.active[a := t], claimed := s.claimed + {t})
  {
    var steps := ClaimSteps(a, t);
    var s1 := Next(s, steps[0]);
    var s2 := Next(s1, steps[1]);
    var s3 := Next(s2, steps[2]);
    var s4 := Next(s3, steps[3]);
    assert steps[1..][1..][1..] == [steps[3]] && steps[1..][1..] == [steps[2], steps[3]];
    assert Exec(s3, [steps[3]]) == Exec(s4, []);
    assert Exec(s2, [steps[2], steps[3]]) == Exec(s3, [steps[3]]);
    assert s4.polls == s.polls;
  }

  /** A run after which task "1" has released the slot, task "2" holds it, and "1" is still reporting. */
  lemma OverlapRun() returns (steps: seq<Step>, s: Runtime)
    ensures s == Exec(Start({"a"}), steps)
    ensures s == Start({"a"}).(jobs := [Job("a", "1", Released), Job("a", "2", Queued)],
                               active := map["a" := "2"], claimed := {"1", "2"})
  {
    var s0 := Start({"a"});
    ClaimEffect(s0, "a", "1");
    var s1 := Exec(s0, ClaimSteps("a", "1"));
    var middle := [Begin(0), Release(0, None)];
    var s2 := Next(Next(s1, Begin(0)), Release(0, None));
    assert Exec(s1, middle) == s2 by {
      assert middle[1..] == [Release(0, None)];
      assert Exec(Next(s1, Begin(0)), [Release(0, None)]) == Exec(s2, []);
    }
    ClaimEffect(s2, "a", "2");
    steps := ClaimSteps("a", "1") + middle + ClaimSteps("a", "2");
    s := Exec(s2, ClaimSteps("a", "2"));
    ExecAppend(s0, ClaimSteps("a", "1"), middle);
    ExecAppend(s0, ClaimSteps("a", "1") + middle, ClaimSteps("a", "2"));
  }

  /** If a released job throws while a newer task holds the slot, its agent can claim again at once. */
  lemma ThrowThenClaim(s: Runtime, j: nat, t: string) returns (last: Runtime)
    requires JobAt(s, j, Released) && s.running && t != "" && t !in s.claimed
    requires PollAt(s, s.jobs[j].agent, Idle) && s.jobs[j].agent !in s.waiting.Values
    ensures last == Exec(s, [Throw(j)] + ClaimSteps(s.jobs[j].agent, t))
    ensures last.jobs == s.jobs[j := s.jobs[j].(phase := Failing)] + [Job(s.jobs[j].agent, t, Queued)]
  {
    var a := s.jobs[j].agent;
    var thrown := Next(s, Throw(j));
    ClaimEffect(thrown, a, t);
    last := Exec(thrown, ClaimSteps(a, t));
    assert ([Throw(j)] + ClaimSteps(a, t))[1..] == ClaimSteps(a, t);
  }

  /** So a late exception can leave one agent with two unreleased tasks. */
  lemma LateThrowAdmitsSecondTask() returns (steps: seq<Step>, s: Runtime)
    ensures s == Exec(Start({"a"}), steps)
    ensures |s.jobs| == 3 && HoldsSlot(s.jobs[1], "a") && HoldsSlot(s.jobs[2], "a")
  {
    var overlap, s0 := OverlapRun();
    s := ThrowThenClaim(s0, 0, "3");
    steps := overlap + ([Throw(0)] + ClaimSteps("a", "3"));
    ExecAppend(Start({"a"}), overlap, [Throw(0)] + ClaimSteps("a", "3"));
  }

  // ---------------------------------------------------------------------------------------------
  // Nothing is left over: holds in every run, late exceptions included
  // ---------------------------------------------------------------------------------------------

  /** A taken slot names a task that has not released it. */
  ghost predicate SlotsAreHeld(s: Runtime) {
    forall a :: a in s.active ==> Unreleased(s, a, s.active[a])
  }

  lemma JobStepKeepsHeld(s: Runtime, j: nat, p: Phase)
    requires SlotsAreHeld(s) && j < |s.jobs|
    requires p in {Queued, Executing} || s.jobs[j].agent !in s.active || s.jobs[j].phase !in {Queued, Executing}
    ensures SlotsAreHeld(SetPhase(s, j, p))
  {
    var s' := SetPhase(s, j, p);
    forall a | a in s'.active
      ensures Unreleased(s', a, s'.active[a])
    {
      assert Unreleased(s, a, s.active[a]);
      if i :| 0 <= i < |s.jobs| && HoldsSlot(s.jobs[i], a) && s.jobs[i].task == s.active[a] {
        assert HoldsSlot(s'.jobs[i], a) && s'.jobs[i].task == s'.active[a];
      }
    }
  }

  lemma SubmitKeepsHeld(s: Runtime, a: string)
    requires SlotsAreHeld(s) && Enabled(s, Submit(a))
    ensures SlotsAreHeld(Apply(s, Submit(a)))
  {
    var s' := Apply(s, Submit(a));
    forall b | b in s'.active
      ensures Unreleased(s', b, s'.active[b])
    {
      assert Unreleased(s, b, s.active[b]);
      if i :| 0 <= i < |s.jobs| && HoldsSlot(s.jobs[i], b) && s.jobs[i].task == s.active[b] {
        assert HoldsSlot(s'.jobs[i], b) && s'.jobs[i].task == s'.active[b];
      } else if b == a {
        assert HoldsSlot(s'.jobs[|s.jobs|], b) && s'.jobs[|s.jobs|].task == s'.active[b];
      }
    }
  }

  lemma PollStepKeepsHeld(s: Runtime, s': Runtime)
    requires SlotsAreHeld(s) && s'.jobs == s.jobs
    requires forall a :: a in s'.active ==>
               (a in s.active && s.active[a] == s'.active[a]
                   && (PollAt(s, a, Recorded(s.active[a])) ==> PollAt(s', a, Recorded(s.active[a]))))
               || PollAt(s', a, Recorded(s'.active[a]))
    ensures SlotsAreHeld(s')
  {
    forall a | a in s'.active
      ensures Unreleased(s', a, s'.active[a])
    {
      assert a in s.active ==> Unreleased(s, a, s.active[a]);
    }
  }

  lemma StepKeepsHeld(s: Runtime, step: Step)
    requires SlotsAreHeld(s)
    ensures SlotsAreHeld(Next(s, step))
  {
    if Enabled(s, step) {
      match step
      case Submit(a) => SubmitKeepsHeld(s, a);
      case Begin(j) => JobStepKeepsHeld(s, j, Executing);
      case Finish(j) => JobStepKeepsHeld(s, j, Finished);
      case Release(j, _) =>
        PollStepKeepsHeld(s, ClearActive(s, s.jobs[j].agent));
        JobStepKeepsHeld(ClearActive(s, s.jobs[j].agent), j, Released);
        PollStepKeepsHeld(SetPhase(ClearActive(s, s.jobs[j].agent), j, Released), Next(s, step));
      case Throw(j) =>
        PollStepKeepsHeld(s, ClearActive(s, s.jobs[j].agent));
        JobStepKeepsHeld(ClearActive(s, s.jobs[j].agent), j, Failing);
      case _ => PollStepKeepsHeld(s, Next(s, step));
    }
  }

  lemma {:induction false} HeldAlways(s: Runtime, steps: seq<Step>)
    requires SlotsAreHeld(s)
    ensures SlotsAreHeld(Exec(s, steps))
    decreases |steps|
  {
    if steps != [] {
      StepKeepsHeld(s, steps[0]);
      HeldAlways(Next(s, steps[0]), steps[1..]);
    }
  }

  predicate AllExited(s: Runtime) {
    forall a :: a in s.polls ==> s.polls[a] == Exited
  }

  lemma NothingIsHeld(s: Runtime)
    requires SlotsAreHeld(s) && AllExited(s) && forall j :: 0 <= j < |s.jobs| ==> s.jobs[j].phase == Finished
    ensures s.active == map[]
  {
    forall a
      ensures a !in s.active
    {
      assert a in s.active ==> Unreleased(s, a, s.active[a]);
    }
  }

  /** In every run: when the poll threads have left and all jobs are finished, no slot is left over. */
  lemma StopLeavesNoSlot(agents: set<string>, steps: seq<Step>)
    ensures var s := Exec(Start(agents), steps);
            AllExited(s) && (forall j :: 0 <= j < |s.jobs| ==> s.jobs[j].phase == Finished) ==> s.active == map[]
  {
    var s := Exec(Start(agents), steps);
    HeldAlways(Start(agents), steps);
    if AllExited(s) && forall j :: 0 <= j < |s.jobs| ==> s.jobs[j].phase == Finished {
      NothingIsHeld(s);
    }
  }

  // ---------------------------------------------------------------------------------------------
  // When an agent claims
  // ---------------------------------------------------------------------------------------------

  /** A poll thread at the loop head leaves if the runtime was stopped, and goes on to claim exactly if its agent has
      neither a slot nor a waiting task. */
  lemma CheckMeans(s: Runtime, a: string)
    requires PollAt(s, a, Idle)
    ensures var next := Next(s, Check(a));
            && next == s.(polls := s.polls[a := next.polls[a]]) && next.polls[a] in {Idle, Asking, Exited}
            && (next.polls[a] == Exited <==> !s.running)
            && (next.polls[a] == Asking <==>
                  s.running && a !in s.active && forall k :: k in s.waiting ==> s.waiting[k] != a)
  {
    assert a in s.waiting.Values <==> exists k :: k in s.waiting && s.waiting[k] == a;
    assert s.polls[a := Idle] == s.polls;
  }

  /** Only an answer with an id is a claim. */
  lemma ClaimMeans(s: Runtime, a: string, reply: Option<string>, task: string)
    requires PollAt(s, a, Asking)
    ensures PollAt(Next(s, Claim(a, reply)), a, Answered(task)) <==> reply == Some(task) && task != ""
    ensures Next(s, Claim(a, reply)).polls[a] in {Idle} || Next(s, Claim(a, reply)).polls[a].Answered?
  {
  }

  ghost predicate TasksHaveIds(s: Runtime) {
    && (forall a :: a in s.polls && s.polls[a].Answered? ==> s.polls[a].task != "")
    && (forall a :: a in s.polls && s.polls[a].Recorded? ==> s.polls[a].task != "")
    && (forall j :: 0 <= j < |s.jobs| ==> s.jobs[j].task != "")
  }

  lemma StepKeepsIds(s: Runtime, step: Step)
    requires TasksHaveIds(s)
    ensures TasksHaveIds(Next(s, step))
  {
    if Enabled(s, step) && step.Submit? {
      var jobs := Next(s, step).jobs;
      assert forall j :: 0 <= j < |jobs| ==> jobs[j] == if j < |s.jobs| then s.jobs[j] else jobs[|s.jobs|];
    }
  }

  lemma {:induction false} IdsFrom(s: Runtime, steps: seq<Step>)
    requires TasksHaveIds(s)
    ensures TasksHaveIds(Exec(s, steps))
    decreases |steps|
  {
    hide Next, TasksHaveIds;
    if steps != [] {
      StepKeepsIds(s, steps[0]);
      IdsFrom(Next(s, steps[0]), steps[1..]);
    }
  }

  /** No task without an id is ever handed to the pool. */
  lemma TasksAlwaysHaveIds(agents: set<string>, steps: seq<Step>)
    ensures var jobs := Exec(Start(agents), steps).jobs; forall j :: 0 <= j < |jobs| ==> jobs[j].task != ""
  {
    IdsFrom(Start(agents), steps);
  }

  /** While these steps are made, the waiting task stays filed under its key. */
  ghost predicate StaysFiled(s: Runtime, key: string, a: string, steps: seq<Step>)
    decreases |steps|
  {
    && key in s.waiting && s.waiting[key] == a
    && (steps != [] ==> StaysFiled(Next(s, steps[0]), key, a, steps[1..]))
  }

  ghost predicate IsQuiet(s: Runtime, a: string) {
    PollAt(s, a, Idle) || PollAt(s, a, Exited)
  }

  /** As long as a task of the agent waits for its user, the agent claims none. */
  lemma {:induction false} WaitingAgentClaimsNothing(s: Runtime, key: string, a: string, steps: seq<Step>)
    requires IsQuiet(s, a) && StaysFiled(s, key, a, steps)
    ensures IsQuiet(Exec(s, steps), a)
    ensures |s.jobs| <= |Exec(s, steps).jobs|
    ensures forall j :: |s.jobs| <= j < |Exec(s, steps).jobs| ==> Exec(s, steps).jobs[j].agent != a
    decreases |steps|
  {
    if steps != [] {
      var next := Next(s, steps[0]);
      QuietStep(s, key, a, steps[0]);
      WaitingAgentClaimsNothing(next, key, a, steps[1..]);
      AgentsStay(next, steps[1..]);
    }
  }

  lemma QuietStep(s: Runtime, key: string, a: string, step: Step)
    requires IsQuiet(s, a) && key in s.waiting && s.waiting[key] == a
    ensures var next := Next(s, step);
            && IsQuiet(next, a) && |s.jobs| <= |next.jobs|
            && forall j :: |s.jobs| <= j < |next.jobs| ==> next.jobs[j].agent != a
  {
    if step == Check(a) && PollAt(s, a, Idle) {
      CheckMeans(s, a);
    }
  }

  ghost predicate KeepsAgents(jobs: seq<Job>, jobs': seq<Job>) {
    |jobs| <= |jobs'| && forall j :: 0 <= j < |jobs| ==> jobs'[j].agent == jobs[j].agent
  }

  lemma StepKeepsAgents(s: Runtime, step: Step)
    ensures KeepsAgents(s.jobs, Next(s, step).jobs)
  {
  }

  lemma {:induction false} AgentsStay(s: Runtime, steps: seq<Step>)
    ensures KeepsAgents(s.jobs, Exec(s, steps).jobs)
    decreases |steps|
  {
    hide Next;
    if steps != [] {
      StepKeepsAgents(s, steps[0]);
      AgentsStay(Next(s, steps[0]), steps[1..]);
    }
  }

  /** So after a task is filed as waiting, while the slots are exact, its agent submits no other before it is taken
      from the file. */
  lemma FiledTaskBlocksAgent(s: Runtime, j: nat, key: string, steps: seq<Step>)
    requires SlotsExact(s) && JobAt(s, j, Executing)
    requires StaysFiled(Next(s, Release(j, Some(key))), key, s.jobs[j].agent, steps)
    ensures Next(s, Release(j, Some(key))).waiting == s.waiting[key := s.jobs[j].agent]
    ensures var last := Exec(Next(s, Release(j, Some(key))), steps);
            && IsQuiet(last, s.jobs[j].agent) && |last.jobs| >= |s.jobs|
            && forall i :: |s.jobs| <= i < |last.jobs| ==> last.jobs[i].agent != s.jobs[j].agent
  {
    var a := s.jobs[j].agent;
    assert HoldsSlot(s.jobs[j], a) && Unreleased(s, a, s.jobs[j].task);
    assert SlotIs(s, a, s.jobs[j].task);
    WaitingAgentClaimsNothing(Next(s, Release(j, Some(key))), key, a, steps);
  }

  // ---------------------------------------------------------------------------------------------
  // The sections as methods
  // ---------------------------------------------------------------------------------------------

  class TaskRuntime {
    var running: bool
    var activeTasks: map<string, string>
    var claimedTaskIds: set<string>
    var waitingTasks: map<string, string>
    /** The poll threads and the jobs of the pool. */
    ghost var polls: map<string, Poll>
    ghost var jobs: seq<Job>

    constructor (ghost agents: set<string>)
      ensures State() == Start(agents)
    {
      running, activeTasks, claimedTaskIds, waitingTasks := true, map[], {}, map[];
      polls, jobs := map a | a in agents :: Idle, [];
    }

    ghost function State(): Runtime
      reads this
    {
      Runtime(running, polls, jobs, activeTasks, claimedTaskIds, waitingTasks)
    }

    /** Whether the agent has a task at work or waiting for an answer. */
    method HasPendingTaskForLocalAgent(localAgent: string) returns (pending: bool)
      ensures pending <==> localAgent in activeTasks || exists k :: k in waitingTasks && waitingTasks[k] == localAgent
    {
      if localAgent in activeTasks {
        return true;
      }
      var keys := waitingTasks.Keys;
      while keys != {}
        invariant keys <= waitingTasks.Keys
        invariant forall k :: k in waitingTasks && k !in keys ==> waitingTasks[k] != localAgent
        decreases keys
      {
        var key :| key in keys;
        if waitingTasks[key] == localAgent {
          return true;
        }
        keys := keys - {key};
      }
      pending := false;
    }

    /** The section in which a poll thread takes the slot for the task it claimed. */
    method RecordSection(localAgent: string, taskId: string) returns (taken: bool)
      requires PollAt(State(), localAgent, Answered(taskId))
      modifies this
      ensures State() == Apply(old(State()), Record(localAgent)) && taken == (taskId !in old(claimedTaskIds))
      ensures activeTasks == if taken then old(activeTasks)[localAgent := taskId] else old(activeTasks)
      ensures claimedTaskIds == old(claimedTaskIds) + {taskId} && waitingTasks == old(waitingTasks)
    {
      if taskId in claimedTaskIds {
        polls := polls[localAgent := Idle];
        return false;
      }
      activeTasks := activeTasks[localAgent := taskId];
      claimedTaskIds := claimedTaskIds + {taskId};
      polls := polls[localAgent := Recorded(taskId)];
      taken := true;
    }

    /** The end of a task: the slot is given up, and the task may be filed as waiting. */
    method ReleaseSection(ghost j: nat, localAgent: string, parkUnder: Option<string>)
      requires Enabled(State(), Release(j, parkUnder)) && jobs[j].agent == localAgent
      modifies this
      ensures State() == Apply(old(State()), Release(j, parkUnder))
      ensures activeTasks == old(activeTasks) - {localAgent} && claimedTaskIds == old(claimedTaskIds)
      ensures waitingTasks == if parkUnder.None? then old(waitingTasks)
                              else old(waitingTasks)[parkUnder.value := localAgent]
    {
      if parkUnder.Some? {
        waitingTasks := waitingTasks[parkUnder.value := localAgent];
      }
      activeTasks := activeTasks - {localAgent};
      jobs := jobs[j := jobs[j].(phase := Released)];
    }

    /** `ClearActiveTask` in a catch block, whether the slot was given up before or not. */
    method ClearActiveTask(ghost j: nat, localAgent: string)
      requires Enabled(State(), Throw(j)) && jobs[j].agent == localAgent
      modifies this
      ensures State() == Apply(old(State()), Throw(j))
      ensures activeTasks == old(activeTasks) - {localAgent} && claimedTaskIds == old(claimedTaskIds)
      ensures waitingTasks == old(waitingTasks)
    {
      activeTasks := activeTasks - {localAgent};
      jobs := jobs[j := jobs[j].(phase := Failing)];
    }
  }
}
