/** What tool calls are answered with: a file is edited only if it was read before
    (src/agent/agent_loop.cpp). */
module ToolGuard {
  import opened Messages
  import opened Options
  import opened TurnLog

  /** The tools: the result of the last of the calls executed so far. */
  type Run = seq<ToolCall> -> Option<string>

  /** What a call finds: the calls executed so far, and the files read in the session. */
  datatype Bench = Bench(runs: seq<ToolCall>, paths: set<string>)

  const NO_PATH := "Error: edit_file requires a path parameter"
  const NOT_READ := "Error: file must be read using read_file before editing with edit_file. Path: "

  /** The text that an edit is turned down with. */
  ghost function Refusal(call: ToolCall, paths: set<string>): Option<string> {
    if call.name != "edit_file" then None
    else if "path" !in call.arguments || call.arguments["path"] == "" then Some(NO_PATH)
    else if call.arguments["path"] !in paths then Some(NOT_READ + call.arguments["path"])
    else None
  }

  /** A result that is text, and not of an error. */
  ghost predicate IsSuccess(result: Option<string>) {
    result.Some? && result.value != "" && !("Error:" <= result.value)
  }

  ghost function AfterCall(run: Run, b: Bench, call: ToolCall): Bench {
    if Refusal(call, b.paths).Some? then b
    else
      var runs := b.runs + [call];
      Bench(runs, if call.name == "read_file" && "path" in call.arguments && IsSuccess(run(runs))
                  then b.paths + {call.arguments["path"]} else b.paths)
  }

  ghost function AnswerTo(run: Run, b: Bench, call: ToolCall): Option<string> {
    if Refusal(call, b.paths).Some? then Refusal(call, b.paths) else run(b.runs + [call])
  }

  /** After the calls of a round ... */
  ghost function AfterCalls(run: Run, b: Bench, answered: seq<Answered>): Bench {
    if answered == [] then b
    else AfterCall(run, AfterCalls(run, b, answered[..|answered| - 1]), answered[|answered| - 1].call)
  }

  /** ... whose results are what the calls give one after the other. */
  ghost predicate AreAnswers(run: Run, b: Bench, answered: seq<Answered>) {
    answered != [] ==>
      var front, last := answered[..|answered| - 1], answered[|answered| - 1];
      AreAnswers(run, b, front) && AnswerTo(run, AfterCalls(run, b, front), last.call) == Some(last.result)
  }

  /** The answered calls of these passes, in order. */
  ghost function AnsweredIn(events: seq<Event>): seq<Answered> {
    if events == [] then []
    else
      var last := events[|events| - 1];
      AnsweredIn(events[..|events| - 1]) + if last.Round? then last.answered else []
  }

  lemma CallsStep(run: Run, b: Bench, answered: seq<Answered>, a: Answered)
    ensures AfterCalls(run, b, answered + [a]) == AfterCall(run, AfterCalls(run, b, answered), a.call)
    ensures AreAnswers(run, b, answered + [a]) <==>
            AreAnswers(run, b, answered) && AnswerTo(run, AfterCalls(run, b, answered), a.call) == Some(a.result)
  {
    assert (answered + [a])[..|answered + [a]| - 1] == answered;
  }

  lemma EventsStep(events: seq<Event>, e: Event)
    ensures AnsweredIn(events + [e]) == AnsweredIn(events) + if e.Round? then e.answered else []
  {
    assert (events + [e])[..|events + [e]| - 1] == events;
  }

  lemma {:induction false} CallsJoin(run: Run, b: Bench, first: seq<Answered>, second: seq<Answered>)
    ensures AfterCalls(run, b, first + second) == AfterCalls(run, AfterCalls(run, b, first), second)
    ensures AreAnswers(run, b, first + second) <==>
            AreAnswers(run, b, first) && AreAnswers(run, AfterCalls(run, b, first), second)
    decreases |second|
  {
    if second == [] {
      assert first + second == first;
    } else {
      var front, last := second[..|second| - 1], second[|second| - 1];
      CallsJoin(run, b, first, front);
      CallsStep(run, b, first + front, last);
      assert first + second == first + front + [last];
    }
  }

  // ---------------------------------------------------------------------------------------------
  // What the answers of a round mean
  // ---------------------------------------------------------------------------------------------

  /** Execution `i` read this file. */
  ghost predicate IsRead(run: Run, runs: seq<ToolCall>, i: nat, path: string) {
    && i < |runs| && runs[i].name == "read_file" && "path" in runs[i].arguments && runs[i].arguments["path"] == path
    && IsSuccess(run(runs[..i + 1]))
  }

  /** The call was executed as the one with this number, and gave this result. */
  ghost predicate IsExecution(run: Run, runs: seq<ToolCall>, n: nat, a: Answered) {
    n < |runs| && runs[n] == a.call && run(runs[..n + 1]) == Some(a.result)
  }

  /** The call edits no file, or one that was read: in the session before, or by an execution from `first` on,
      before number `n`. */
  ghost predicate IsAllowed(run: Run, runs: seq<ToolCall>, first: nat, n: nat, paths: set<string>, call: ToolCall) {
    call.name == "edit_file" ==>
      && "path" in call.arguments && call.arguments["path"] != ""
      && (call.arguments["path"] in paths || exists k :: first <= k < n && IsRead(run, runs, k, call.arguments["path"]))
  }

  /** What a call that is not executed is answered with. */
  ghost predicate IsTurnedDown(a: Answered) {
    && a.call.name == "edit_file"
    && a.result == if "path" !in a.call.arguments || a.call.arguments["path"] == ""
                   then "Error: edit_file requires a path parameter"
                   else "Error: file must be read using read_file before editing with edit_file. Path: "
                        + a.call.arguments["path"]
  }

  /** The executions before each of some calls: one more behind a call that is executed. */
  ghost predicate AreNumbers(run: Run, b: Bench, answered: seq<Answered>, runs: seq<ToolCall>, at: seq<nat>) {
    && |at| == |answered| + 1 && at[0] == |b.runs| && at[|answered|] == |runs|
    && (forall k :: 0 <= k <= |answered| ==> at[k] <= |runs|)
    && forall k :: 0 <= k < |answered| ==> IsNumber(run, b, answered[k], runs, at[k], at[k + 1])
  }

  ghost predicate IsNumber(run: Run, b: Bench, a: Answered, runs: seq<ToolCall>, n: nat, next: nat) {
    if IsAllowed(run, runs, |b.runs|, n, b.paths, a.call) then next == n + 1 && IsExecution(run, runs, n, a)
    else next == n && IsTurnedDown(a)
  }

  lemma PrefixesMatch(runs: seq<ToolCall>, more: seq<ToolCall>, i: nat)
    requires runs <= more && i < |runs|
    ensures runs[..i + 1] == more[..i + 1] && runs[i] == more[i]
  {
  }

  lemma ReadStays(run: Run, runs: seq<ToolCall>, more: seq<ToolCall>, i: nat, path: string)
    requires runs <= more && i < |runs|
    ensures IsRead(run, runs, i, path) <==> IsRead(run, more, i, path)
  {
    PrefixesMatch(runs, more, i);
  }

  lemma AllowedStays(run: Run, runs: seq<ToolCall>, more: seq<ToolCall>, first: nat, n: nat, paths: set<string>,
                     call: ToolCall)
    requires runs <= more && n <= |runs|
    ensures IsAllowed(run, runs, first, n, paths, call) <==> IsAllowed(run, more, first, n, paths, call)
  {
    hide IsRead;
    if call.name == "edit_file" && "path" in call.arguments {
      forall k: nat | first <= k < n
        ensures IsRead(run, runs, k, call.arguments["path"]) <==> IsRead(run, more, k, call.arguments["path"])
      {
        ReadStays(run, runs, more, k, call.arguments["path"]);
      }
    }
  }

  lemma NumberStays(run: Run, b: Bench, a: Answered, runs: seq<ToolCall>, more: seq<ToolCall>, n: nat, next: nat)
    requires runs <= more && next <= |runs| && IsNumber(run, b, a, runs, n, next)
    ensures IsNumber(run, b, a, more, n, next)
  {
    hide IsAllowed;
    AllowedStays(run, runs, more, |b.runs|, n, b.paths, a.call);
    if n < |runs| {
      PrefixesMatch(runs, more, n);
    }
  }

  /** The paths of a bench: those from before, and those that the executions read. */
  ghost predicate AreRead(run: Run, b: Bench, to: Bench) {
    && b.runs <= to.runs
    && forall p :: p in to.paths <==>
                   p in b.paths || (exists k :: |b.runs| <= k < |to.runs| && IsRead(run, to.runs, k, p))
  }

  lemma LastRead(run: Run, runs: seq<ToolCall>, call: ToolCall, path: string)
    ensures IsRead(run, runs + [call], |runs|, path) <==>
            call.name == "read_file" && "path" in call.arguments && call.arguments["path"] == path
            && IsSuccess(run(runs + [call]))
  {
    assert (runs + [call])[..|runs| + 1] == runs + [call];
  }

  lemma ReadByCall(run: Run, b: Bench, from: Bench, call: ToolCall)
    requires AreRead(run, b, from)
    ensures AreRead(run, b, AfterCall(run, from, call))
  {
    hide IsSuccess, IsRead;
    var to := AfterCall(run, from, call);
    if Refusal(call, from.paths).None? {
      forall p
        ensures p in to.paths <==> p in from.paths || IsRead(run, to.runs, |from.runs|, p)
      {
        LastRead(run, from.runs, call, p);
      }
      forall p, k: nat | k < |from.runs|
        ensures IsRead(run, from.runs, k, p) <==> IsRead(run, to.runs, k, p)
      {
        ReadStays(run, from.runs, to.runs, k, p);
      }
    }
  }

  lemma NumberOfCall(run: Run, b: Bench, from: Bench, a: Answered)
    requires AreRead(run, b, from) && AnswerTo(run, from, a.call) == Some(a.result)
    ensures var to := AfterCall(run, from, a.call); IsNumber(run, b, a, to.runs, |from.runs|, |to.runs|)
  {
    hide IsRead, IsSuccess;
    var to := AfterCall(run, from, a.call);
    AllowedStays(run, from.runs, to.runs, |b.runs|, |from.runs|, b.paths, a.call);
    if Refusal(a.call, from.paths).None? {
      assert to.runs[..|from.runs| + 1] == to.runs;
    }
  }

  /** Each call of a round is executed, in order, and answered with what its tool gives, unless it edits a file that
      was not read before; then it is turned down.  Exactly the files that were read successfully count as read. */
  lemma {:induction false} CallsAreExecuted(run: Run, b: Bench, answered: seq<Answered>) returns (at: seq<nat>)
    requires AreAnswers(run, b, answered)
    ensures var to := AfterCalls(run, b, answered);
            AreRead(run, b, to) && AreNumbers(run, b, answered, to.runs, at)
    decreases |answered|
  {
    if answered == [] {
      at := [|b.runs|];
    } else {
      hide AreRead, IsNumber, AfterCall, AnswerTo;
      var front, last := answered[..|answered| - 1], answered[|answered| - 1];
      var before := CallsAreExecuted(run, b, front);
      var from, to := AfterCalls(run, b, front), AfterCalls(run, b, answered);
      ReadByCall(run, b, from, last.call);
      NumberOfCall(run, b, from, last);
      RunsGrow(run, from, last.call);
      at := before + [|to.runs|];
      forall k | 0 <= k < |front|
        ensures IsNumber(run, b, answered[k], to.runs, at[k], at[k + 1])
      {
        NumberStays(run, b, front[k], from.runs, to.runs, before[k], before[k + 1]);
      }
    }
  }

  lemma RunsGrow(run: Run, b: Bench, call: ToolCall)
    ensures b.runs <= AfterCall(run, b, call).runs
  {
  }

  // ---------------------------------------------------------------------------------------------
  // No edit without a read
  // ---------------------------------------------------------------------------------------------

  /** Each of these files was read by one of the executions ... */
  ghost predicate WereRead(run: Run, runs: seq<ToolCall>, paths: set<string>) {
    forall p :: p in paths ==> exists k: nat :: k < |runs| && IsRead(run, runs, k, p)
  }

  /** ... and each file that was edited, by one before that. */
  ghost predicate EditsAreGuarded(run: Run, runs: seq<ToolCall>) {
    forall n: nat :: n < |runs| ==> IsGuarded(run, runs, n)
  }

  ghost predicate IsGuarded(run: Run, runs: seq<ToolCall>, n: nat)
    requires n < |runs|
  {
    runs[n].name == "edit_file" ==>
      "path" in runs[n].arguments && exists k: nat :: k < n && IsRead(run, runs, k, runs[n].arguments["path"])
  }

  ghost predicate IsCareful(run: Run, b: Bench) {
    WereRead(run, b.runs, b.paths) && EditsAreGuarded(run, b.runs)
  }

  lemma ReadBefore(run: Run, runs: seq<ToolCall>, more: seq<ToolCall>, paths: set<string>)
    requires WereRead(run, runs, paths) && runs <= more
    ensures WereRead(run, more, paths)
  {
    hide IsRead;
    forall p | p in paths
      ensures exists k: nat :: k < |more| && IsRead(run, more, k, p)
    {
      var k: nat :| k < |runs| && IsRead(run, runs, k, p);
      ReadStays(run, runs, more, k, p);
    }
  }

  lemma GuardStays(run: Run, runs: seq<ToolCall>, more: seq<ToolCall>, n: nat)
    requires runs <= more && n < |runs| && IsGuarded(run, runs, n)
    ensures IsGuarded(run, more, n)
  {
    hide IsRead;
    if runs[n].name == "edit_file" {
      var k: nat :| k < n && IsRead(run, runs, k, runs[n].arguments["path"]);
      ReadStays(run, runs, more, k, runs[n].arguments["path"]);
    }
  }

  lemma CallIsCareful(run: Run, b: Bench, call: ToolCall)
    requires IsCareful(run, b)
    ensures IsCareful(run, AfterCall(run, b, call))
  {
    hide IsRead, IsSuccess;
    if Refusal(call, b.paths).None? {
      var to := AfterCall(run, b, call);
      ReadBefore(run, b.runs, to.runs, b.paths);
      forall p | p in to.paths && p !in b.paths
        ensures IsRead(run, to.runs, |b.runs|, p)
      {
        LastRead(run, b.runs, call, p);
      }
      forall n: nat | n < |to.runs|
        ensures IsGuarded(run, to.runs, n)
      {
        if n < |b.runs| {
          GuardStays(run, b.runs, to.runs, n);
        } else if call.name == "edit_file" {
          var k: nat :| k < |b.runs| && IsRead(run, b.runs, k, call.arguments["path"]);
          ReadStays(run, b.runs, to.runs, k, call.arguments["path"]);
        }
      }
    }
  }
}
