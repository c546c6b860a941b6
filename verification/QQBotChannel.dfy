/** The lifecycle of the QQ bot client (src/channels/qqbot_channel.cpp).

    `Start`, `Stop`, connecting clients, their events and the rebuild threads interleave; a step is one
    section under `lifecycle_mutex_`, one atomic access, or a join.  A step that is not possible where it
    is tried changes nothing, so a run is any list of steps.  A client is named by its generation, a
    rebuild thread by its number. */
module QQBotChannel {
  import opened Options

  /** Where the latest rebuild is; `rebuild_in_progress_` holds unless there is none. */
  datatype Rebuild =
    | NoRebuild
    | Scheduled(client: nat)    // won the exchange, has no thread yet
    | Sleeping(client: nat)     // before the first check
    | Woken                     // about to take the client down
    | TornDown                  // about to look at the stop flag
    | AboutToStart              // saw no stop request, about to call `Start`
    | Connecting(attempt: nat)  // inside `Start`

  /** Where a call of `Stop` is. */
  datatype StopCall =
    | Flagged              // set the stop flag, about to lock
    | Joining(thread: nat) // took the thread handle, waits for the thread to end
    | StopReturned

  datatype Lifecycle = Lifecycle(
    running: bool,
    client: Option<nat>,      // websocket_
    api: Option<nat>,         // openapi_v1_
    generation: nat,          // callback_generation_
    stopRequested: bool,      // external_stop_requested_
    joinable: bool,           // rebuild_thread_ holds the latest thread
    attempts: set<nat>,       // clients that `Start` is connecting
    rebuild: Rebuild,
    threads: nat,             // how many rebuild threads there were
    stops: seq<StopCall>,     // the calls of `Stop`
    created: seq<nat>,        // every client that was ever made, in order
    aborted: bool)            // std::terminate was called

  datatype Step =
    | BeginStart(created: bool)   // the first section of `Start`, called by the owner
    | Connected(attempt: nat)     // the second section, after `Connect` returned
    | ConnectFailed(attempt: nat) // the section of the catch block
    | Abandoned(attempt: nat)     // `Connect` threw something that `Start` does not catch
    | RequestStop                 // a call of `Stop` sets its flag
    | StopSection(call: nat)      // the section of `StopInternal` in that call
    | StopJoins(call: nat)        // its join returns
    | Terminal(client: nat)       // a terminal error is handled up to the exchange
    | Spawn                       // the section that makes the rebuild thread
    | RebuildWakes
    | RebuildTearsDown
    | RebuildDecides
    | RebuildStarts(created: bool)

  const FRESH := Lifecycle(false, None, None, 0, false, false, {}, NoRebuild, 0, [], [], false)

  // ---------------------------------------------------------------------------------------------
  // The sections
  // ---------------------------------------------------------------------------------------------

  /** The section in which `Start` makes a client; `created` tells whether the SDK made one. */
  function Began(s: Lifecycle, configured: bool, created: bool): Lifecycle {
    if s.running then s
    else if !configured then s.(stopRequested := false)
    else
      var next := s.(stopRequested := false, generation := s.generation + 1);
      if created then next.(attempts := next.attempts + {next.generation}, created := next.created + [next.generation])
          else next
  }

  function Installed(s: Lifecycle, attempt: nat): Lifecycle {
    var left := s.(attempts := s.attempts - {attempt});
    if attempt != s.generation || s.stopRequested then left
    else left.(client := Some(attempt), api := Some(attempt), running := true)
  }

  function Failed(s: Lifecycle, attempt: nat): Lifecycle {
    s.(attempts := s.attempts - {attempt}, client := None, api := None, running := false,
       generation := if attempt == s.generation then s.generation + 1 else s.generation)
  }

  predicate HoldsNothing(s: Lifecycle) {
    !s.running && s.client.None? && s.api.None?
  }

  /** `StopInternal` as the rebuild thread calls it. */
  function DownTaken(s: Lifecycle): Lifecycle {
    if HoldsNothing(s) then s
    else s.(running := false, generation := s.generation + 1, client := None, api := None)
  }

  /** `StopInternal` as `Stop` calls it.  With nothing to take down, a thread handle that can be joined is
      moved to a local variable and destroyed at the return, which ends the process. */
  function StopTaken(s: Lifecycle, call: nat): Lifecycle
    requires call < |s.stops|
  {
    if HoldsNothing(s) then
      if s.joinable then s.(joinable := false, aborted := true)
      else s.(stops := s.stops[call := StopReturned])
    else
      DownTaken(s).(joinable := false,
                    stops := s.stops[call := if s.joinable then Joining(s.threads) else StopReturned])
  }

  /** The rebuild ends with the `Start` it called. */
  function RebuildDone(s: Lifecycle, attempt: nat): Lifecycle {
    if s.rebuild == Connecting(attempt) then s.(rebuild := NoRebuild) else s
  }

  /** A thread is at its end once it cleared `rebuild_in_progress_`. */
  predicate Ended(s: Lifecycle, thread: nat) {
    thread < s.threads || s.rebuild.NoRebuild? || s.rebuild.Scheduled?
  }

  function Apply(s: Lifecycle, step: Step, configured: bool): Lifecycle {
    if s.aborted then s
    else
      match step
      case BeginStart(created) => Began(s, configured, created)
      case Connected(attempt) => if attempt in s.attempts then RebuildDone(Installed(s, attempt), attempt) else s
      case ConnectFailed(attempt) => if attempt in s.attempts then RebuildDone(Failed(s, attempt), attempt) else s
      case Abandoned(attempt) =>
        if attempt in s.attempts then RebuildDone(s.(attempts := s.attempts - {attempt}), attempt) else s
      case RequestStop => s.(stopRequested := true, stops := s.stops + [Flagged])
      case StopSection(call) => if call < |s.stops| && s.stops[call] == Flagged then StopTaken(s, call) else s
      case StopJoins(call) =>
        if call < |s.stops| && s.stops[call].Joining? && Ended(s, s.stops[call].thread)
        then s.(stops := s.stops[call := StopReturned])
        else s
      case Terminal(client) => if s.rebuild.NoRebuild? && client in s.created then s.(rebuild := Scheduled(client))
          else s
      case Spawn =>
        if s.rebuild.Scheduled? then
            s.(rebuild := Sleeping(s.rebuild.client), threads := s.threads + 1, joinable := true) else s
      case RebuildWakes =>
        if !s.rebuild.Sleeping? then s
        else s.(rebuild := if s.rebuild.client != s.generation || s.stopRequested then NoRebuild else Woken)
      case RebuildTearsDown => if s.rebuild.Woken? then DownTaken(s).(rebuild := TornDown) else s
      case RebuildDecides => if s.rebuild.TornDown? then
          s.(rebuild := if s.stopRequested then NoRebuild else AboutToStart) else s
      case RebuildStarts(created) =>
        if !s.rebuild.AboutToStart? then s
        else
          var next := Began(s, configured, created);
          next.(rebuild := if !s.running && configured && created then Connecting(next.generation) else NoRebuild)
  }

  function Run(s: Lifecycle, steps: seq<Step>, configured: bool): Lifecycle
    decreases |steps|
  {
    if steps == [] then s else Run(Apply(s, steps[0], configured), steps[1..], configured)
  }

  ghost predicate Reachable(s: Lifecycle, configured: bool) {
    exists steps :: s == Run(FRESH, steps, configured)
  }

  // ---------------------------------------------------------------------------------------------
  // Events
  // ---------------------------------------------------------------------------------------------

  /** Whether a dispatch event of a client passes the checks of the event handler. */
  predicate AcceptsDispatch(s: Lifecycle, client: nat) {
    client == s.generation && s.running
  }

  /** Whether any other event of a client does. */
  predicate AcceptsLifecycle(s: Lifecycle, client: nat) {
    client == s.generation
  }

  // ---------------------------------------------------------------------------------------------
  // The invariant
  // ---------------------------------------------------------------------------------------------

  predicate Increasing(gens: seq<nat>, bound: nat) {
    && (forall i :: 0 <= i < |gens| ==> 0 < gens[i] <= bound)
    && (forall i, j :: 0 <= i < j < |gens| ==> gens[i] < gens[j])
  }

  ghost predicate Valid(s: Lifecycle) {
    && (s.running <==> s.client.Some?) && s.api == s.client
    && (s.client.Some? ==>
          s.client.value == s.generation && s.client.value in s.created && s.client.value !in s.attempts)
    && (forall g :: g in s.attempts ==> g in s.created)
    && Increasing(s.created, s.generation)
    && RebuildIsKnown(s)
  }

  predicate RebuildIsKnown(s: Lifecycle) {
    match s.rebuild
    case Scheduled(client) => client in s.created
    case Sleeping(client) => client in s.created
    case Connecting(attempt) => attempt in s.attempts
    case _ => true
  }

  lemma BeganKeepsValid(s: Lifecycle, configured: bool, created: bool)
    requires Valid(s)
    ensures Valid(Began(s, configured, created))
  {
    var next := Began(s, configured, created);
    if !s.running && configured && created {
      assert next.created[|s.created|] == next.generation;
      assert forall g :: g in s.created ==> g in next.created;
    }
  }

  lemma InstalledKeepsValid(s: Lifecycle, attempt: nat)
    requires Valid(s) && attempt in s.attempts
    ensures Valid(RebuildDone(Installed(s, attempt), attempt))
  {
  }

  lemma FailedKeepsValid(s: Lifecycle, attempt: nat)
    requires Valid(s) && attempt in s.attempts
    ensures Valid(RebuildDone(Failed(s, attempt), attempt))
  {
  }

  lemma DownKeepsValid(s: Lifecycle)
    requires Valid(s)
    ensures Valid(DownTaken(s))
    ensures forall call: nat :: call < |s.stops| ==> Valid(StopTaken(s, call))
  {
  }

  /** Steps that install and remove no client. */
  lemma QuietStepKeepsValid(s: Lifecycle, step: Step, configured: bool)
    requires Valid(s)
    requires step.Abandoned? || step.RequestStop? || step.StopJoins? || step.Terminal? || step.Spawn?
             || step.RebuildWakes? || step.RebuildDecides?
    ensures Valid(Apply(s, step, configured))
  {
  }

  lemma GenerationGrows(s: Lifecycle, step: Step, configured: bool)
    ensures Apply(s, step, configured).generation >= s.generation
  {
  }

  lemma StepKeepsValid(s: Lifecycle, step: Step, configured: bool)
    requires Valid(s)
    ensures Valid(Apply(s, step, configured)) && Apply(s, step, configured).generation >= s.generation
  {
    GenerationGrows(s, step, configured);
    if !s.aborted {
      match step
      case BeginStart(created) => BeganKeepsValid(s, configured, created);
      case RebuildStarts(created) => BeganKeepsValid(s, configured, created);
      case Connected(attempt) => if attempt in s.attempts { InstalledKeepsValid(s, attempt); }
      case ConnectFailed(attempt) => if attempt in s.attempts { FailedKeepsValid(s, attempt); }
      case StopSection(call) => DownKeepsValid(s);
      case RebuildTearsDown => DownKeepsValid(s);
      case _ => QuietStepKeepsValid(s, step, configured);
    }
  }

  lemma {:induction false} RunKeepsValid(s: Lifecycle, steps: seq<Step>, configured: bool)
    requires Valid(s)
    ensures Valid(Run(s, steps, configured)) && Run(s, steps, configured).generation >= s.generation
    decreases |steps|
  {
    if steps != [] {
      StepKeepsValid(s, steps[0], configured);
      RunKeepsValid(Apply(s, steps[0], configured), steps[1..], configured);
    }
  }

  lemma ReachableIsValid(s: Lifecycle, configured: bool)
    requires Reachable(s, configured)
    ensures Valid(s)
  {
    var steps :| s == Run(FRESH, steps, configured);
    RunKeepsValid(FRESH, steps, configured);
  }

  /** In every interleaving: the channel runs exactly if a client is installed, that client is the one
      of the current generation, and dispatch events are accepted from it and from no other. */
  lemma RunsIffInstalled(s: Lifecycle, configured: bool)
    requires Reachable(s, configured)
    ensures s.running <==> s.client.Some?
    ensures s.client.Some? ==> s.client.value == s.generation
    ensures forall g: nat :: AcceptsDispatch(s, g) <==> s.client == Some(g)
    ensures forall i, j :: 0 <= i < j < |s.created| ==> s.created[i] < s.created[j] <= s.generation
  {
    ReachableIsValid(s, configured);
  }

  // ---------------------------------------------------------------------------------------------
  // A client that is gone stays gone
  // ---------------------------------------------------------------------------------------------

  predicate Gone(s: Lifecycle, g: nat) {
    g <= s.generation && g !in s.attempts && s.client != Some(g)
  }

  lemma StepKeepsGone(s: Lifecycle, g: nat, step: Step, configured: bool)
    requires Gone(s, g)
    ensures Gone(Apply(s, step, configured), g)
  {
  }

  /** Whatever happens next, a removed or discarded client gets no dispatch event through. */
  lemma {:induction false} GoneStaysGone(s: Lifecycle, g: nat, steps: seq<Step>, configured: bool)
    requires Valid(s) && Gone(s, g)
    ensures Gone(Run(s, steps, configured), g) && !AcceptsDispatch(Run(s, steps, configured), g)
    decreases |steps|
  {
    if steps != [] {
      StepKeepsValid(s, steps[0], configured);
      StepKeepsGone(s, g, steps[0], configured);
      GoneStaysGone(Apply(s, steps[0], configured), g, steps[1..], configured);
    }
  }

  // ---------------------------------------------------------------------------------------------
  // Runs
  // ---------------------------------------------------------------------------------------------

  lemma RunFirst(s: Lifecycle, step: Step, rest: seq<Step>, configured: bool)
    ensures Run(s, [step] + rest, configured) == Run(Apply(s, step, configured), rest, configured)
  {
    assert ([step] + rest)[1..] == rest;
  }

  lemma {:induction false} RunOneMore(s: Lifecycle, steps: seq<Step>, step: Step, configured: bool)
    ensures Run(s, steps + [step], configured) == Apply(Run(s, steps, configured), step, configured)
    decreases |steps|
  {
    if steps == [] {
      assert steps + [step] == [step] && [step][1..] == [];
    } else {
      assert (steps + [step])[0] == steps[0] && (steps + [step])[1..] == steps[1..] + [step];
      RunOneMore(Apply(s, steps[0], configured), steps[1..], step, configured);
    }
  }

  lemma StepReaches(s: Lifecycle, step: Step, next: Lifecycle, configured: bool)
    requires Reachable(s, configured) && next == Apply(s, step, configured)
    ensures Reachable(next, configured)
  {
    var steps :| s == Run(FRESH, steps, configured);
    RunOneMore(FRESH, steps, step, configured);
  }

  // ---------------------------------------------------------------------------------------------
  // What `Stop` does to the process
  // ---------------------------------------------------------------------------------------------

  /** A call of `Stop` ends the process exactly if the channel is not running and the handle of a rebuild
      thread was not taken yet, whether that thread is still at work or not. */
  lemma StopAbortsIff(s: Lifecycle, call: nat, configured: bool)
    requires Reachable(s, configured) && !s.aborted && call < |s.stops| && s.stops[call] == Flagged
    ensures Apply(s, StopSection(call), configured).aborted <==> !s.running && s.joinable
  {
    ReachableIsValid(s, configured);
  }

  /** No other step does. */
  lemma OnlyStopAborts(s: Lifecycle, step: Step, configured: bool)
    requires !s.aborted && Apply(s, step, configured).aborted
    ensures step.StopSection? && step.call < |s.stops| && s.stops[step.call] == Flagged && HoldsNothing(s) && s.joinable
  {
  }

  const FIRST_RUNS := Lifecycle(true, Some(1), Some(1), 1, false, false, {}, NoRebuild, 0, [], [1], false)

  lemma FirstClientRuns()
    ensures Reachable(FIRST_RUNS, true)
  {
    assert FRESH == Run(FRESH, [], true);
    var begun := FRESH.(generation := 1, attempts := {1}, created := [1]);
    StepReaches(FRESH, BeginStart(true), begun, true);
    assert begun.attempts - {1} == {};
    StepReaches(begun, Connected(1), FIRST_RUNS, true);
  }

  /** The rebuild after a terminal error of the first client, about to call `Start`. */
  const REBUILDING :=
    Lifecycle(false, None, None, 2, false, true, {}, AboutToStart, 1, [], [1], false)

  lemma RebuildReaches()
    ensures Reachable(REBUILDING, true)
  {
    FirstClientRuns();
    var scheduled := FIRST_RUNS.(rebuild := Scheduled(1));
    StepReaches(FIRST_RUNS, Terminal(1), scheduled, true);
    var sleeping := FIRST_RUNS.(rebuild := Sleeping(1), threads := 1, joinable := true);
    StepReaches(scheduled, Spawn, sleeping, true);
    var woken := sleeping.(rebuild := Woken);
    StepReaches(sleeping, RebuildWakes, woken, true);
    var down := REBUILDING.(rebuild := TornDown);
    StepReaches(woken, RebuildTearsDown, down, true);
    StepReaches(down, RebuildDecides, REBUILDING, true);
  }

  lemma FailedRebuildReaches(failed: Lifecycle)
    requires failed == Lifecycle(false, None, None, 4, false, true, {}, NoRebuild, 1, [], [1, 3], false)
    ensures Reachable(failed, true)
  {
    RebuildReaches();
    var connecting := REBUILDING.(generation := 3, attempts := {3}, rebuild := Connecting(3), created := [1, 3]);
    assert REBUILDING.attempts + {3} == {3} && [1] + [3] == [1, 3];
    StepReaches(REBUILDING, RebuildStarts(true), connecting, true);
    assert connecting.attempts - {3} == {};
    StepReaches(connecting, ConnectFailed(3), failed, true);
  }

  /** A rebuild whose client fails to connect leaves such a channel: the next `Stop`, which the destructor
      calls too, ends the process. */
  lemma StopAfterFailedRebuildAborts() returns (s: Lifecycle)
    ensures Reachable(s, true) && s.aborted && s.rebuild.NoRebuild?
  {
    var failed := Lifecycle(false, None, None, 4, false, true, {}, NoRebuild, 1, [], [1, 3], false);
    FailedRebuildReaches(failed);
    var flagged := failed.(stopRequested := true, stops := [Flagged]);
    assert failed.stops + [Flagged] == [Flagged];
    StepReaches(failed, RequestStop, flagged, true);
    s := flagged.(joinable := false, aborted := true);
    StepReaches(flagged, StopSection(0), s, true);
  }

  // ---------------------------------------------------------------------------------------------
  // What a stop request is worth
  // ---------------------------------------------------------------------------------------------

  predicate NoOwnerStart(steps: seq<Step>) {
    forall i :: 0 <= i < |steps| ==> !steps[i].BeginStart?
  }

  /** A channel that is down can come up by itself: its rebuild has passed the look at the stop flag, or the
      flag is not set and there is a rebuild under way or a client whose events still pass. */
  predicate MayRunAgain(s: Lifecycle) {
    || s.rebuild.AboutToStart?
    || (!s.stopRequested && (s.rebuild.Woken? || s.rebuild.TornDown? || s.generation in s.created))
  }

  lemma StepKeepsQuiet(s: Lifecycle, step: Step, configured: bool)
    requires Valid(s) && !s.running && !MayRunAgain(s) && !step.BeginStart?
    ensures !Apply(s, step, configured).running && !MayRunAgain(Apply(s, step, configured))
  {
  }

  lemma {:induction false} StaysQuiet(s: Lifecycle, steps: seq<Step>, configured: bool)
    requires Valid(s) && !s.running && !MayRunAgain(s) && NoOwnerStart(steps)
    ensures !Run(s, steps, configured).running
    decreases |steps|
  {
    if steps != [] {
      assert !steps[0].BeginStart?;
      StepKeepsValid(s, steps[0], configured);
      StepKeepsQuiet(s, steps[0], configured);
      StaysQuiet(Apply(s, steps[0], configured), steps[1..], configured);
    }
  }

  /** How far such a channel is from running. */
  ghost function Distance(s: Lifecycle): nat {
    match s.rebuild
    case AboutToStart => 0
    case TornDown => 1
    case Woken => 2
    case Sleeping(client) => if client == s.generation then 3 else 6
    case Scheduled(client) => if client == s.generation then 4 else 7
    case NoRebuild => 5
    case Connecting(_) => 6
  }

  /** The next step on the way. */
  function Onward(s: Lifecycle): Step {
    match s.rebuild
    case AboutToStart => RebuildStarts(true)
    case TornDown => RebuildDecides
    case Woken => RebuildTearsDown
    case Sleeping(_) => RebuildWakes
    case Scheduled(_) => Spawn
    case NoRebuild => Terminal(s.generation)
    case Connecting(attempt) => Connected(attempt)
  }

  lemma OnwardGetsCloser(s: Lifecycle)
    requires Valid(s) && !s.running && !s.aborted && MayRunAgain(s) && !s.rebuild.AboutToStart?
    ensures var next := Apply(s, Onward(s), true);
            && !next.aborted && next.stops == s.stops
            && (if next.running then next.rebuild.NoRebuild? else MayRunAgain(next) && Distance(next) < Distance(s))
  {
  }

  lemma StartsAndConnects(s: Lifecycle)
    requires !s.running && !s.aborted && s.rebuild.AboutToStart?
    ensures var last := Apply(Apply(s, RebuildStarts(true), true), Connected(s.generation + 1), true);
            last.running && last.rebuild.NoRebuild? && !last.aborted && last.stops == s.stops
  {
  }

  lemma RunsAgain(s: Lifecycle) returns (steps: seq<Step>)
    requires Valid(s) && !s.running && !s.aborted && MayRunAgain(s)
    ensures NoOwnerStart(steps)
    ensures var last := Run(s, steps, true);
            last.running && last.rebuild.NoRebuild? && !last.aborted && last.stops == s.stops
    decreases Distance(s)
  {
    if s.rebuild.AboutToStart? {
      steps := [RebuildStarts(true), Connected(s.generation + 1)];
      StartsAndConnects(s);
      RunOneMore(s, [RebuildStarts(true)], Connected(s.generation + 1), true);
      RunOneMore(s, [], RebuildStarts(true), true);
      assert [] + [RebuildStarts(true)] == [RebuildStarts(true)];
      assert [RebuildStarts(true)] + [Connected(s.generation + 1)] == steps;
    } else {
      var next := Apply(s, Onward(s), true);
      OnwardGetsCloser(s);
      StepKeepsValid(s, Onward(s), true);
      var rest: seq<Step> := [];
      if !next.running {
        rest := RunsAgain(next);
      }
      RunFirst(s, Onward(s), rest, true);
      steps := [Onward(s)] + rest;
    }
  }

  /** A channel that is down can come up without its owner exactly in that state. */
  lemma MayRunAgainIff(s: Lifecycle)
    requires Reachable(s, true) && !s.aborted && !s.running
    ensures (exists steps :: NoOwnerStart(steps) && Run(s, steps, true).running) <==> MayRunAgain(s)
  {
    ReachableIsValid(s, true);
    if MayRunAgain(s) {
      var steps := RunsAgain(s);
    } else {
      forall steps | NoOwnerStart(steps)
        ensures !Run(s, steps, true).running
      {
        StaysQuiet(s, steps, true);
      }
    }
  }

  predicate HasReturned(s: Lifecycle, call: nat) {
    call < |s.stops| && s.stops[call] == StopReturned
  }

  /** After the section of a `Stop` that did not end the process, the channel can run again once that call
      has returned, without the owner starting it, exactly in that state. */
  lemma StopIsLostIff(s: Lifecycle, call: nat)
    requires Reachable(s, true) && !s.aborted && call < |s.stops| && s.stops[call] == Flagged
    requires !Apply(s, StopSection(call), true).aborted
    ensures var next := Apply(s, StopSection(call), true);
            (exists steps :: NoOwnerStart(steps) && HasReturned(Run(next, steps, true), call)
                && Run(next, steps, true).running)
            <==> MayRunAgain(next)
  {
    var next := Apply(s, StopSection(call), true);
    StepReaches(s, StopSection(call), next, true);
    ReachableIsValid(s, true);
    MayRunAgainIff(next);
    if MayRunAgain(next) {
      StepKeepsValid(s, StopSection(call), true);
      var steps := RunsAgain(next);
      var last := Run(next, steps, true);
      var all := if next.stops[call].Joining? then steps + [StopJoins(call)] else steps;
      RunOneMore(next, steps, StopJoins(call), true);
      assert NoOwnerStart(all) && HasReturned(Run(next, all, true), call) && Run(next, all, true).running;
    }
  }

  /** A rebuild thread at its work: from its making until it clears `rebuild_in_progress_`. */
  predicate IsAtWork(s: Lifecycle) {
    s.rebuild.Sleeping? || s.rebuild.Woken? || s.rebuild.TornDown? || s.rebuild.AboutToStart? || s.rebuild.Connecting?
  }

  /** The threads that calls of `Stop` wait for were made. */
  ghost predicate JoinsKnown(s: Lifecycle) {
    forall call :: 0 <= call < |s.stops| ==> s.stops[call].Joining? ==> s.stops[call].thread <= s.threads
  }

  lemma StepKeepsJoins(s: Lifecycle, step: Step, configured: bool)
    requires JoinsKnown(s)
    ensures JoinsKnown(Apply(s, step, configured))
  {
    var next := Apply(s, step, configured);
    forall call | 0 <= call < |next.stops| && next.stops[call].Joining?
      ensures next.stops[call].thread <= next.threads
    {
      assert call < |s.stops| ==> s.stops[call].Joining? ==> s.stops[call].thread <= s.threads;
    }
  }

  lemma {:induction false} JoinsAlwaysKnown(s: Lifecycle, steps: seq<Step>, configured: bool)
    requires JoinsKnown(s)
    ensures JoinsKnown(Run(s, steps, configured))
    decreases |steps|
  {
    hide Apply, JoinsKnown;
    if steps != [] {
      StepKeepsJoins(s, steps[0], configured);
      JoinsAlwaysKnown(Apply(s, steps[0], configured), steps[1..], configured);
    }
  }

  /** The join in a call of `Stop` returns exactly when its thread is not at work any more: it is not the latest,
      or the latest has ended. */
  lemma JoinReturnsIff(s: Lifecycle, call: nat, configured: bool)
    requires Reachable(s, configured) && !s.aborted && call < |s.stops| && s.stops[call].Joining?
    ensures HasReturned(Apply(s, StopJoins(call), configured), call) <==>
              s.stops[call].thread < s.threads || !IsAtWork(s)
    ensures s.stops[call].thread <= s.threads
  {
    var steps :| s == Run(FRESH, steps, configured);
    JoinsAlwaysKnown(FRESH, steps, configured);
  }

  /** No rebuild is scheduled while a thread is at work, so no thread is made then. */
  lemma OneThreadAtWork(s: Lifecycle, step: Step, configured: bool)
    ensures Apply(s, step, configured).threads ==
              s.threads + if !s.aborted && step.Spawn? && s.rebuild.Scheduled? then 1 else 0
    ensures IsAtWork(s) ==> Apply(s, step, configured).threads == s.threads
  {
  }

  /** In terms of the channel that the call finds: if that runs, all clients are turned away and only a rebuild
      that is past its checks can bring it up again. */
  lemma StopOfRunningChannel(s: Lifecycle, call: nat)
    requires Reachable(s, true) && !s.aborted && call < |s.stops| && s.stops[call] == Flagged && s.running
    ensures !Apply(s, StopSection(call), true).aborted
    ensures MayRunAgain(Apply(s, StopSection(call), true))
            <==> s.rebuild.AboutToStart? || (!s.stopRequested && (s.rebuild.Woken? || s.rebuild.TornDown?))
  {
    ReachableIsValid(s, true);
  }

  /** Such a run: the owner starts the channel while a rebuild is about to, and stops it again.  The call
      takes the client down and waits for the rebuild thread, which clears the flag and connects. */
  lemma StopReturnsWithRunningChannel() returns (s: Lifecycle)
    ensures Reachable(s, true) && s.running && s.stops == [StopReturned]
  {
    RebuildReaches();
    var begun := REBUILDING.(generation := 3, attempts := {3}, created := [1, 3]);
    assert REBUILDING.attempts + {3} == {3} && [1] + [3] == [1, 3];
    StepReaches(REBUILDING, BeginStart(true), begun, true);
    var running := begun.(running := true, client := Some(3), api := Some(3), attempts := {});
    assert begun.attempts - {3} == {};
    StepReaches(begun, Connected(3), running, true);
    var flagged := running.(stopRequested := true, stops := [Flagged]);
    assert running.stops + [Flagged] == [Flagged];
    StepReaches(running, RequestStop, flagged, true);
    var down := Lifecycle(false, None, None, 4, true, false, {}, AboutToStart, 1, [Joining(1)], [1, 3], false);
    assert [Flagged][0 := Joining(1)] == [Joining(1)];
    StepReaches(flagged, StopSection(0), down, true);
    s := LostStopEnds(down);
  }

  lemma LostStopEnds(down: Lifecycle) returns (s: Lifecycle)
    requires down == Lifecycle(false, None, None, 4, true, false, {}, AboutToStart, 1, [Joining(1)], [1, 3], false)
    requires Reachable(down, true)
    ensures Reachable(s, true) && s.running && s.stops == [StopReturned]
  {
    var again := down.(generation := 5, stopRequested := false, attempts := {5}, rebuild := Connecting(5),
                       created := [1, 3, 5]);
    assert down.attempts + {5} == {5} && [1, 3] + [5] == [1, 3, 5];
    StepReaches(down, RebuildStarts(true), again, true);
    var up := again.(running := true, client := Some(5), api := Some(5), attempts := {}, rebuild := NoRebuild);
    assert again.attempts - {5} == {};
    StepReaches(again, Connected(5), up, true);
    s := up.(stops := [StopReturned]);
    assert [Joining(1)][0 := StopReturned] == [StopReturned];
    StepReaches(up, StopJoins(0), s, true);
  }

  // ---------------------------------------------------------------------------------------------
  // What ends a running channel
  // ---------------------------------------------------------------------------------------------

  /** A running channel is ended by a stop, by a rebuild, or by an older client that fails to connect;
      in the last case the generation stays, so other than dispatch events of the client that was
      dropped still pass. */
  lemma RunningEndsIff(s: Lifecycle, step: Step, configured: bool)
    requires Reachable(s, configured) && !s.aborted && s.running
    ensures var next := Apply(s, step, configured);
            && s.client.Some?
            && (!next.running <==> (step.StopSection? && step.call < |s.stops| && s.stops[step.call] == Flagged)
                                   || (step.RebuildTearsDown? && s.rebuild.Woken?)
                                   || (step.ConnectFailed? && step.attempt in s.attempts))
            && (step.ConnectFailed? && !next.running ==>
                  step.attempt < s.client.value && AcceptsLifecycle(next, s.client.value))
            && (step.StopSection? && !next.running ==> !AcceptsLifecycle(next, s.client.value))
  {
    ReachableIsValid(s, configured);
  }

  /** Two overlapping starts: the second client is installed while the first still connects. */
  lemma OlderClientStillConnects() returns (s: Lifecycle)
    ensures Reachable(s, true) && !s.aborted && s.running && s.client == Some(2) && 1 in s.attempts
  {
    assert FRESH == Run(FRESH, [], true);
    var one := FRESH.(generation := 1, attempts := {1}, created := [1]);
    StepReaches(FRESH, BeginStart(true), one, true);
    var two := FRESH.(generation := 2, attempts := {1, 2}, created := [1, 2]);
    assert [1] + [2] == [1, 2];
    StepReaches(one, BeginStart(true), two, true);
    s := two.(running := true, client := Some(2), api := Some(2), attempts := {1});
    assert two.attempts - {2} == {1};
    StepReaches(two, Connected(2), s, true);
  }

  // ---------------------------------------------------------------------------------------------
  // The sections as methods
  // ---------------------------------------------------------------------------------------------

  class QQBotChannel {
    const configured: bool
    var running: bool
    var client: Option<nat>
    var api: Option<nat>
    var generation: nat
    var externalStopRequested: bool
    var rebuildInProgress: bool
    var rebuildThreadJoinable: bool
    /** The threads inside `Start`, `Stop` and the rebuild, and the clients made so far. */
    ghost var attempts: set<nat>
    ghost var rebuild: Rebuild
    ghost var threads: nat
    ghost var stops: seq<StopCall>
    ghost var created: seq<nat>
    ghost var aborted: bool

    constructor (configured: bool)
      ensures State() == FRESH && this.configured == configured && !rebuildInProgress
    {
      this.configured := configured;
      running, client, api, generation := false, None, None, 0;
      externalStopRequested, rebuildInProgress, rebuildThreadJoinable := false, false, false;
      attempts, rebuild, threads, stops, created, aborted := {}, NoRebuild, 0, [], [], false;
    }

    ghost function State(): Lifecycle
      reads this
    {
      Lifecycle(running, client, api, generation, externalStopRequested, rebuildThreadJoinable, attempts, rebuild,
                threads, stops, created, aborted)
    }

    /** The first section of `Start`; `sdkMakesClient` is false if a client pointer is null. */
    method BeginSection(sdkMakesClient: bool) returns (attempt: Option<nat>)
      modifies this
      ensures State() == Began(old(State()), configured, sdkMakesClient)
      ensures attempt == if !old(running) && configured && sdkMakesClient then Some(generation) else None
      ensures running == old(running) && client == old(client) && api == old(api)
      ensures externalStopRequested == (old(running) && old(externalStopRequested))
      ensures generation == old(generation) + if !old(running) && configured then 1 else 0
      ensures rebuildInProgress == old(rebuildInProgress)
    {
      if running {
        return None;
      }
      externalStopRequested := false;
      if !configured {
        running := false;
        return None;
      }
      generation := generation + 1;
      if !sdkMakesClient {
        running := false;
        return None;
      }
      attempts, created := attempts + {generation}, created + [generation];
      attempt := Some(generation);
    }

    /** The second section of `Start`, after its client connected. */
    method InstallSection(attempt: nat)
      modifies this
      ensures State() == Installed(old(State()), attempt) && rebuildInProgress == old(rebuildInProgress)
      ensures if attempt == old(generation) && !old(externalStopRequested)
              then running && client == api == Some(attempt)
              else running == old(running) && client == old(client) && api == old(api)
    {
      attempts := attempts - {attempt};
      if attempt != generation || externalStopRequested {
        return;
      }
      api := Some(attempt);
      client := Some(attempt);
      running := true;
    }

    /** The section of the catch block in `Start`. */
    method FailSection(attempt: nat)
      modifies this
      ensures State() == Failed(old(State()), attempt) && rebuildInProgress == old(rebuildInProgress)
      ensures !running && client.None? && api.None?
      ensures generation == old(generation) + if attempt == old(generation) then 1 else 0
    {
      attempts := attempts - {attempt};
      if attempt == generation {
        generation := generation + 1;
      }
      client := None;
      api := None;
      running := false;
    }

    /** The section of `StopInternal`.  The client it returns is disconnected and the thread joined outside;
        a call of `Stop` that returns early with the handle in a local variable ends the process. */
    method StopInternalSection(external: bool, ghost call: nat)
        returns (disconnected: Option<nat>, joins: bool, aborts: bool)
      requires !aborted && (external ==> call < |stops| && stops[call] == Flagged)
      modifies this
      ensures State() == if external then Apply(old(State()), StopSection(call), configured)
              else DownTaken(old(State()))
      ensures disconnected == old(client) && aborts == aborted && rebuildInProgress == old(rebuildInProgress)
      ensures joins == (external && old(rebuildThreadJoinable) && !aborts)
      ensures !running && client.None? && api.None?
      ensures aborts <==> external && old(rebuildThreadJoinable) && !old(running) && old(client).None? && old(api).None?
      ensures generation == old(generation) + if old(running) || old(client).Some? || old(api).Some? then 1 else 0
    {
      disconnected, joins, aborts := None, false, false;
      var threadTaken := external && rebuildThreadJoinable;
      if !running && client.None? && api.None? {
        if threadTaken {
          rebuildThreadJoinable := false;
          aborts := true;
          aborted := true;
        } else if external {
          stops := stops[call := StopReturned];
        }
        return;
      }
      running := false;
      generation := generation + 1;
      disconnected := client;
      client := None;
      api := None;
      if external {
        stops := stops[call := if threadTaken then Joining(threads) else StopReturned];
      }
      if threadTaken {
        rebuildThreadJoinable := false;
        joins := true;
      }
    }

    /** The checks of the event handler. */
    method CheckEvent(eventClient: nat, dispatch: bool) returns (accepted: bool)
      ensures accepted == if dispatch then AcceptsDispatch(State(), eventClient)
              else AcceptsLifecycle(State(), eventClient)
      ensures accepted <==> eventClient == generation && (!dispatch || running)
    {
      var activeGeneration, activeRunning := eventClient == generation, running;
      if !activeGeneration {
        return false;
      }
      return !dispatch || activeRunning;
    }

    /** The exchange on `rebuild_in_progress_` that lets one rebuild begin. */
    method ScheduleClientRebuild(eventClient: nat) returns (scheduled: bool)
      requires !aborted && eventClient in created && (rebuildInProgress <==> !rebuild.NoRebuild?)
      modifies this`rebuildInProgress, this`rebuild
      ensures State() == Apply(old(State()), Terminal(eventClient), configured) && scheduled == old(rebuild).NoRebuild?
      ensures rebuildInProgress <==> !rebuild.NoRebuild?
    {
      if rebuildInProgress {
        return false;
      }
      rebuildInProgress := true;
      rebuild := Scheduled(eventClient);
      scheduled := true;
    }

    /** The section that makes the thread; an earlier one is joined outside. */
    method SpawnSection() returns (joinsPrevious: bool)
      requires !aborted && rebuild.Scheduled?
      modifies this
      ensures State() == Apply(old(State()), Spawn, configured) && joinsPrevious == old(rebuildThreadJoinable)
      ensures rebuildInProgress == old(rebuildInProgress)
    {
      joinsPrevious := rebuildThreadJoinable;
      rebuildThreadJoinable := true;
      rebuild, threads := Sleeping(rebuild.client), threads + 1;
    }

    /** The first check of the rebuild thread. */
    method WakeSection(eventClient: nat) returns (goesOn: bool)
      requires !aborted && rebuild == Sleeping(eventClient) && rebuildInProgress
      modifies this`rebuild, this`rebuildInProgress
      ensures State() == Apply(old(State()), RebuildWakes, configured)
      ensures (goesOn <==> rebuild.Woken?) && (rebuildInProgress <==> !rebuild.NoRebuild?)
      ensures goesOn <==> eventClient == generation && !externalStopRequested
    {
      if eventClient != generation || externalStopRequested {
        rebuildInProgress := false;
        rebuild := NoRebuild;
        return false;
      }
      rebuild := Woken;
      goesOn := true;
    }

    method TearDownSection()
      requires !aborted && rebuild.Woken? && rebuildInProgress
      modifies this
      ensures State() == Apply(old(State()), RebuildTearsDown, configured) && rebuildInProgress
    {
      var _, _, _ := StopInternalSection(false, 0);
      rebuild := TornDown;
    }

    /** Its look at the stop flag. */
    method DecideSection() returns (goesOn: bool)
      requires !aborted && rebuild.TornDown? && rebuildInProgress
      modifies this`rebuild, this`rebuildInProgress
      ensures State() == Apply(old(State()), RebuildDecides, configured)
      ensures (goesOn <==> rebuild.AboutToStart?) && (rebuildInProgress <==> !rebuild.NoRebuild?)
      ensures goesOn <==> !externalStopRequested
    {
      if externalStopRequested {
        rebuildInProgress := false;
        rebuild := NoRebuild;
        return false;
      }
      rebuild := AboutToStart;
      goesOn := true;
    }

    /** The first section of the `Start` it calls. */
    method RebuildBeginSection(sdkMakesClient: bool) returns (attempt: Option<nat>)
      requires !aborted && rebuild.AboutToStart? && rebuildInProgress
      modifies this
      ensures State() == Apply(old(State()), RebuildStarts(sdkMakesClient), configured)
      ensures rebuildInProgress <==> !rebuild.NoRebuild?
    {
      attempt := BeginSection(sdkMakesClient);
      if attempt.None? {
        rebuildInProgress := false;
        rebuild := NoRebuild;
      } else {
        rebuild := Connecting(attempt.value);
      }
    }

    /** The rebuild thread up to the end of that section, if nothing else happens meanwhile. */
    method RebuildThread(eventClient: nat, sdkMakesClient: bool)
      requires !aborted && rebuild == Sleeping(eventClient) && rebuildInProgress
      modifies this
      ensures State() ==
              Run(old(State()), [RebuildWakes, RebuildTearsDown, RebuildDecides, RebuildStarts(sdkMakesClient)],
              configured)
      ensures rebuildInProgress <==> !rebuild.NoRebuild?
    {
      RunFour(State(), RebuildWakes, RebuildTearsDown, RebuildDecides, RebuildStarts(sdkMakesClient), configured);
      var goesOn := WakeSection(eventClient);
      if goesOn {
        TearDownSection();
        goesOn := DecideSection();
        if goesOn {
          var _ := RebuildBeginSection(sdkMakesClient);
        }
      }
    }
  }

  lemma RunFour(s: Lifecycle, a: Step, b: Step, c: Step, d: Step, configured: bool)
    ensures Run(s, [a, b, c, d], configured) ==
              Apply(Apply(Apply(Apply(s, a, configured), b, configured), c, configured), d, configured)
  {
    RunOneMore(s, [a, b, c], d, configured);
    RunOneMore(s, [a, b], c, configured);
    RunOneMore(s, [a], b, configured);
    RunOneMore(s, [], a, configured);
    assert [] + [a] == [a] && [a] + [b] == [a, b] && [a, b] + [c] == [a, b, c] && [a, b, c] + [d] == [a, b, c, d];
  }
}
