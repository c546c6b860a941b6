/** The job scheduler (src/cron/cron_service.cpp).

    Readings of the clock, outcomes of the job handler and the evaluation of cron expressions are
    arbitrary, but the clock does not run backwards, and the handler does not edit the store. */
module CronService {
  import opened Options

  datatype ScheduleKind = At | Every | Cron

  datatype Schedule = Schedule(kind: ScheduleKind, atMs: Option<int>, everyMs: Option<int>, expr: string, tz: string)

  datatype Payload = Payload(kind: string, message: string, deliver: bool, agent: string, channel: string, to: string)

  datatype Job = Job(
    id: string,
    name: string,
    enabled: bool,
    schedule: Schedule,
    payload: Payload,
    nextRunAtMs: Option<int>,
    lastRunAtMs: Option<int>,
    lastStatus: string,
    lastError: string,
    createdAtMs: int,
    updatedAtMs: int,
    deleteAfterRun: bool)

  /** One execution: the job as the handler was given it, when, how it ended, and whether `RunDueJobs` started it. */
  datatype Run = Run(job: Job, start: int, error: Option<string>, due: bool)

  /** The readings and the outcome of one execution. */
  datatype Receipt = Receipt(start: int, updated: int, rescheduled: int, error: Option<string>)

  type CronNext = (string, int) -> Option<int>

  // ---------------------------------------------------------------------------------------------
  // One job
  // ---------------------------------------------------------------------------------------------

  function ComputeNextRun(schedule: Schedule, now: int, cronNext: CronNext): (r: Option<int>)
    ensures Later(schedule, r, now)
  {
    match schedule.kind
    case At => if schedule.atMs.Some? && schedule.atMs.value > now then schedule.atMs else None
    case Every => if schedule.everyMs.None? || schedule.everyMs.value <= 0 then None
        else Some(now + schedule.everyMs.value)
    case Cron => if schedule.expr != "" then cronNext(schedule.expr, now) else None
  }

  /** A next run that was computed at `time` or after it. */
  predicate Later(schedule: Schedule, next: Option<int>, time: int) {
    next.Some? ==>
      && (schedule.kind.At? ==> next == schedule.atMs && next.value > time)
      && (schedule.kind.Every? ==> schedule.everyMs.Some? && next.value >= time + schedule.everyMs.value)
  }

  /** What the next run of a schedule is, seen from `now`: the time of an `At` job that lies ahead, one interval
      from now, or what the cron expression says. */
  ghost predicate IsNextRun(next: Option<int>, schedule: Schedule, now: int, cronNext: CronNext) {
    && (schedule.kind.At? ==>
          && (next.Some? <==> schedule.atMs.Some? && now < schedule.atMs.value)
          && (next.Some? ==> next.value == schedule.atMs.value))
    && (schedule.kind.Every? ==>
          && (next.Some? <==> schedule.everyMs.Some? && 0 < schedule.everyMs.value)
          && (next.Some? ==> next.value - now == schedule.everyMs.value))
    && (schedule.kind.Cron? ==>
          && (next.Some? <==> schedule.expr != "" && cronNext(schedule.expr, now).Some?)
          && (next.Some? ==> next == cronNext(schedule.expr, now)))
  }

  lemma NextRunIs(schedule: Schedule, now: int, cronNext: CronNext)
    ensures IsNextRun(ComputeNextRun(schedule, now, cronNext), schedule, now, cronNext)
  {
  }

  predicate IsDue(job: Job, now: int) {
    job.enabled && job.nextRunAtMs.Some? && now >= job.nextRunAtMs.value
  }

  predicate Expires(job: Job) {
    job.schedule.kind.At? && job.deleteAfterRun
  }

  /** A job after one execution. */
  function AfterRun(job: Job, r: Receipt, cronNext: CronNext): Job {
    var done := job.(lastStatus := if r.error.None? then "ok" else "error", lastError := r.error.GetOr(""),
                     lastRunAtMs := Some(r.start), updatedAtMs := r.updated);
    if Expires(job) then done
    else if job.schedule.kind.At? then done.(enabled := false, nextRunAtMs := None)
    else done.(nextRunAtMs := ComputeNextRun(job.schedule, r.rescheduled, cronNext))
  }

  // ---------------------------------------------------------------------------------------------
  // One pass over the store
  // ---------------------------------------------------------------------------------------------

  /** The store after a pass: due jobs have run, and those that expire are gone. */
  function Survivors(jobs: seq<Job>, now: int, receipts: seq<Receipt>, cronNext: CronNext): seq<Job>
    requires |receipts| == |jobs|
  {
    if jobs == [] then []
    else
      var n := |jobs| - 1;
      Survivors(jobs[..n], now, receipts[..n], cronNext)
      + if !IsDue(jobs[n], now) then [jobs[n]] else if Expires(jobs[n]) then []
          else [AfterRun(jobs[n], receipts[n], cronNext)]
  }

  /** The executions of a pass: the due jobs, in order. */
  function DueRuns(jobs: seq<Job>, now: int, receipts: seq<Receipt>): seq<Run>
    requires |receipts| == |jobs|
  {
    if jobs == [] then []
    else
      var n := |jobs| - 1;
      DueRuns(jobs[..n], now, receipts[..n]) + if IsDue(jobs[n], now) then
          [Run(jobs[n], receipts[n].start, receipts[n].error, true)] else []
  }

  ghost predicate InTime(receipts: seq<Receipt>, from: int, to: int) {
    forall i :: 0 <= i < |receipts| ==>
      from <= receipts[i].start <= receipts[i].updated <= receipts[i].rescheduled <= to
  }

  /** The store after the next runs are computed anew: past `At` jobs are dropped. */
  function Recomputed(job: Job, now: int, cronNext: CronNext): Job {
    if job.enabled then job.(nextRunAtMs := ComputeNextRun(job.schedule, now, cronNext)) else job
  }

  predicate IsPast(job: Job, now: int) {
    job.enabled && job.schedule.kind.At? && job.schedule.atMs.Some? && job.schedule.atMs.value <= now
  }

  function RecomputedAll(jobs: seq<Job>, now: int, cronNext: CronNext): seq<Job> {
    if jobs == [] then []
    else
      var last := jobs[|jobs| - 1];
      RecomputedAll(jobs[..|jobs| - 1], now, cronNext) + if IsPast(last, now) then []
          else [Recomputed(last, now, cronNext)]
  }

  // ---------------------------------------------------------------------------------------------
  // What is kept over any run
  // ---------------------------------------------------------------------------------------------

  predicate Unique(jobs: seq<Job>) {
    && (forall i :: 0 <= i < |jobs| ==> jobs[i].id != "")
    && (forall i, j :: 0 <= i < j < |jobs| ==> jobs[i].id != jobs[j].id)
  }

  /** The next run of an enabled `At` job is the time it is set to. */
  predicate AtIsAt(jobs: seq<Job>) {
    forall i :: 0 <= i < |jobs| && jobs[i].schedule.kind.At? && jobs[i].enabled && jobs[i].nextRunAtMs.Some? ==>
      jobs[i].nextRunAtMs == jobs[i].schedule.atMs
  }

  /** What an execution by `RunDueJobs` means for the job from then on. */
  predicate Binds(r: Run, job: Job) {
    && (!job.schedule.kind.Cron? ==> r.job.schedule == job.schedule)
    && (job.schedule.kind.At? ==> job.nextRunAtMs.None?)
    && (job.schedule.kind.Every? && job.nextRunAtMs.Some? ==>
          job.schedule.everyMs.Some? && job.nextRunAtMs.value >= r.start + job.schedule.everyMs.value)
  }

  predicate KnownRun(r: Run, used: set<string>, time: int) {
    && r.job.id in used && r.start <= time
    && (r.due && r.job.schedule.kind.At? ==> r.job.schedule.atMs.Some? && r.job.schedule.atMs.value <= r.start)
  }

  ghost predicate Kept(runs: seq<Run>, store: seq<Job>, used: set<string>, time: int) {
    KnownRuns(runs, used, time) && BindAll(runs, store) && forall k :: 0 <= k < |store| ==> store[k].id in used
  }

  ghost predicate KnownRuns(runs: seq<Run>, used: set<string>, time: int) {
    forall i :: 0 <= i < |runs| ==> KnownRun(runs[i], used, time)
  }

  ghost predicate BindAll(runs: seq<Run>, store: seq<Job>) {
    forall i, k :: 0 <= i < |runs| && 0 <= k < |store| && runs[i].due && runs[i].job.id == store[k].id ==>
        Binds(runs[i], store[k])
  }

  ghost predicate DistinctRuns(runs: seq<Run>) {
    forall i, j :: 0 <= i < j < |runs| ==> runs[i].job.id != runs[j].job.id
  }

  /** Two executions of the same job by `RunDueJobs`: never for an `At` job, and far enough apart for an `Every` job. */
  predicate Apart(first: Run, second: Run) {
    first.due && second.due && first.job.id == second.job.id ==>
      && !second.job.schedule.kind.At?
      && (second.job.schedule.kind.Every? ==>
            second.job.schedule.everyMs.Some? && second.start >= first.start + second.job.schedule.everyMs.value)
  }

  ghost predicate Spaced(runs: seq<Run>) {
    forall i, j :: 0 <= i < j < |runs| ==> Apart(runs[i], runs[j])
  }

  /** `job'` is `job` with its next run left alone, cleared, or computed anew. */
  predicate Evolves(job: Job, job': Job, time: int) {
    && job'.id == job.id && job'.schedule == job.schedule
    && (job'.nextRunAtMs == job.nextRunAtMs || Later(job.schedule, job'.nextRunAtMs, time))
  }

  ghost predicate AllEvolve(store: seq<Job>, store': seq<Job>, time: int) {
    forall k :: 0 <= k < |store'| ==> HasOrigin(store, store'[k], time)
  }

  ghost predicate HasOrigin(store: seq<Job>, job': Job, time: int) {
    exists m :: 0 <= m < |store| && Evolves(store[m], job', time)
  }

  lemma EvolutionKeeps(runs: seq<Run>, store: seq<Job>, store': seq<Job>, used: set<string>, time: int, time': int)
    requires Kept(runs, store, used, time) && time <= time' && AllEvolve(store, store', time)
    ensures Kept(runs, store', used, time')
  {
    forall i, k | 0 <= i < |runs| && 0 <= k < |store'| && runs[i].due && runs[i].job.id == store'[k].id
      ensures Binds(runs[i], store'[k])
    {
      assert HasOrigin(store, store'[k], time);
      var m :| 0 <= m < |store| && Evolves(store[m], store'[k], time);
      assert Binds(runs[i], store[m]);
      assert KnownRun(runs[i], used, time);
    }
  }

  lemma BoundApart(r: Run, job: Job, now: int, start: int, error: Option<string>)
    requires Binds(r, job) && IsDue(job, now) && now <= start
    ensures Apart(r, Run(job, start, error, true))
  {
  }

  // ---------------------------------------------------------------------------------------------
  // Where the jobs of a derived store come from
  // ---------------------------------------------------------------------------------------------

  /** What became of a job in a pass. */
  predicate Survives(job: Job, r: Receipt, now: int, cronNext: CronNext, job': Job) {
    if IsDue(job, now) then !Expires(job) && job' == AfterRun(job, r, cronNext) else job' == job
  }

  lemma {:induction false} SurvivorOrigin(jobs: seq<Job>, now: int, receipts: seq<Receipt>, cronNext: CronNext,
                                          k: nat) returns (m: nat)
    requires |receipts| == |jobs| && k < |Survivors(jobs, now, receipts, cronNext)|
    ensures m < |jobs| && Survives(jobs[m], receipts[m], now, cronNext, Survivors(jobs, now, receipts, cronNext)[k])
  {
    var n := |jobs| - 1;
    if k < |Survivors(jobs[..n], now, receipts[..n], cronNext)| {
      m := SurvivorOrigin(jobs[..n], now, receipts[..n], cronNext, k);
    } else {
      m := n;
    }
  }

  lemma {:induction false} SurvivorsUnique(jobs: seq<Job>, now: int, receipts: seq<Receipt>, cronNext: CronNext)
    requires |receipts| == |jobs| && Unique(jobs)
    ensures Unique(Survivors(jobs, now, receipts, cronNext))
  {
    if jobs != [] {
      var n := |jobs| - 1;
      var front := Survivors(jobs[..n], now, receipts[..n], cronNext);
      SurvivorsUnique(jobs[..n], now, receipts[..n], cronNext);
      forall k | 0 <= k < |front|
        ensures front[k].id != jobs[n].id
      {
        var m := SurvivorOrigin(jobs[..n], now, receipts[..n], cronNext, k);
        assert jobs[..n][m] == jobs[m];
      }
    }
  }

  /** Every job that did not run and expire is still there; nothing else is lost. */
  lemma {:induction false} SurvivorsComplete(jobs: seq<Job>, now: int, receipts: seq<Receipt>, cronNext: CronNext,
                                             m: nat)
    requires |receipts| == |jobs| && m < |jobs| && !(IsDue(jobs[m], now) && Expires(jobs[m]))
    ensures exists job' ::
              job' in Survivors(jobs, now, receipts, cronNext) && Survives(jobs[m], receipts[m], now, cronNext, job')
  {
    var n := |jobs| - 1;
    if m < n {
      SurvivorsComplete(jobs[..n], now, receipts[..n], cronNext, m);
      var job' :| job' in Survivors(jobs[..n], now, receipts[..n], cronNext)
          && Survives(jobs[m], receipts[m], now, cronNext, job');
      assert job' in Survivors(jobs, now, receipts, cronNext);
    } else {
      var job' := if IsDue(jobs[n], now) then AfterRun(jobs[n], receipts[n], cronNext) else jobs[n];
      assert job' in Survivors(jobs, now, receipts, cronNext);
    }
  }

  /** Each execution of a pass is of a due job ... */
  lemma {:induction false} DueRunOrigin(jobs: seq<Job>, now: int, receipts: seq<Receipt>, k: nat) returns (m: nat)
    requires |receipts| == |jobs| && k < |DueRuns(jobs, now, receipts)|
    ensures m < |jobs| && IsDue(jobs[m], now)
    ensures DueRuns(jobs, now, receipts)[k] == Run(jobs[m], receipts[m].start, receipts[m].error, true)
  {
    var n := |jobs| - 1;
    if k < |DueRuns(jobs[..n], now, receipts[..n])| {
      m := DueRunOrigin(jobs[..n], now, receipts[..n], k);
    } else {
      m := n;
    }
  }

  /** ... each due job is executed ... */
  lemma {:induction false} DueJobRuns(jobs: seq<Job>, now: int, receipts: seq<Receipt>, m: nat)
    requires |receipts| == |jobs| && m < |jobs| && IsDue(jobs[m], now)
    ensures Run(jobs[m], receipts[m].start, receipts[m].error, true) in DueRuns(jobs, now, receipts)
  {
    if m < |jobs| - 1 {
      DueJobRuns(jobs[..|jobs| - 1], now, receipts[..|jobs| - 1], m);
    }
  }

  /** ... and none twice. */
  lemma {:induction false} DueRunsDistinct(jobs: seq<Job>, now: int, receipts: seq<Receipt>)
    requires |receipts| == |jobs| && Unique(jobs)
    ensures DistinctRuns(DueRuns(jobs, now, receipts))
  {
    if jobs != [] {
      var n := |jobs| - 1;
      var front := DueRuns(jobs[..n], now, receipts[..n]);
      DueRunsDistinct(jobs[..n], now, receipts[..n]);
      forall k | 0 <= k < |front|
        ensures front[k].job.id != jobs[n].id
      {
        var m := DueRunOrigin(jobs[..n], now, receipts[..n], k);
        assert jobs[..n][m] == jobs[m];
      }
      var runs := DueRuns(jobs, now, receipts);
      assert forall k :: 0 <= k < |runs| ==> runs[k] == if k < |front| then front[k] else runs[|front|];
    }
  }

  lemma {:induction false} RecomputedOrigin(jobs: seq<Job>, now: int, cronNext: CronNext, k: nat) returns (m: nat)
    requires k < |RecomputedAll(jobs, now, cronNext)|
    ensures m < |jobs| && !IsPast(jobs[m], now) && RecomputedAll(jobs, now, cronNext)[k] ==
            Recomputed(jobs[m], now, cronNext)
  {
    var n := |jobs| - 1;
    if k < |RecomputedAll(jobs[..n], now, cronNext)| {
      m := RecomputedOrigin(jobs[..n], now, cronNext, k);
    } else {
      m := n;
    }
  }

  lemma {:induction false} RecomputedUnique(jobs: seq<Job>, now: int, cronNext: CronNext)
    requires Unique(jobs)
    ensures Unique(RecomputedAll(jobs, now, cronNext))
  {
    if jobs != [] {
      var n := |jobs| - 1;
      var front := RecomputedAll(jobs[..n], now, cronNext);
      RecomputedUnique(jobs[..n], now, cronNext);
      forall k | 0 <= k < |front|
        ensures front[k].id != jobs[n].id
      {
        var m := RecomputedOrigin(jobs[..n], now, cronNext, k);
        assert jobs[..n][m] == jobs[m];
      }
    }
  }

  // ---------------------------------------------------------------------------------------------
  // A pass keeps the history
  // ---------------------------------------------------------------------------------------------

  lemma SurvivorEvolves(job: Job, r: Receipt, now: int, time: int, cronNext: CronNext, job': Job)
    requires Survives(job, r, now, cronNext, job') && time <= r.rescheduled
    ensures Evolves(job, job', time)
  {
  }

  /** A job that survived its run is bound by it. */
  lemma SurvivorIsBound(job: Job, r: Receipt, now: int, cronNext: CronNext, job': Job)
    requires Survives(job, r, now, cronNext, job') && IsDue(job, now) && r.start <= r.rescheduled
    ensures Binds(Run(job, r.start, r.error, true), job')
  {
  }

  /** The executions of a pass are known, and come at the right time. */
  lemma PassRunsAreKnown(jobs: seq<Job>, now: int, receipts: seq<Receipt>, used: set<string>, time: int)
    requires |receipts| == |jobs| && InTime(receipts, now, time) && AtIsAt(jobs)
    requires forall k :: 0 <= k < |jobs| ==> jobs[k].id in used
    ensures KnownRuns(DueRuns(jobs, now, receipts), used, time)
  {
    var news := DueRuns(jobs, now, receipts);
    forall i | 0 <= i < |news|
      ensures KnownRun(news[i], used, time)
    {
      var m := DueRunOrigin(jobs, now, receipts, i);
    }
  }

  /** A job in the store after the pass is bound by the execution of the same job in the pass. */
  lemma PassBinds(jobs: seq<Job>, now: int, receipts: seq<Receipt>, cronNext: CronNext, time: int)
    requires |receipts| == |jobs| && InTime(receipts, now, time) && Unique(jobs)
    ensures BindAll(DueRuns(jobs, now, receipts), Survivors(jobs, now, receipts, cronNext))
  {
    var news, rest := DueRuns(jobs, now, receipts), Survivors(jobs, now, receipts, cronNext);
    forall i, k | 0 <= i < |news| && 0 <= k < |rest| && news[i].due && news[i].job.id == rest[k].id
      ensures Binds(news[i], rest[k])
    {
      var m := DueRunOrigin(jobs, now, receipts, i);
      var l := SurvivorOrigin(jobs, now, receipts, cronNext, k);
      SurvivorEvolves(jobs[l], receipts[l], now, now, cronNext, rest[k]);
      assert m == l;
      SurvivorIsBound(jobs[m], receipts[m], now, cronNext, rest[k]);
    }
  }

  /** The executions of a pass are of different jobs, and apart from those before it. */
  lemma PassRunsAreApart(runs: seq<Run>, jobs: seq<Job>, now: int, receipts: seq<Receipt>, used: set<string>, time: int)
    requires |receipts| == |jobs| && InTime(receipts, now, time) && Unique(jobs) && Spaced(runs)
    requires BindAll(runs, jobs)
    ensures Spaced(runs + DueRuns(jobs, now, receipts))
  {
    var news := DueRuns(jobs, now, receipts);
    DueRunsDistinct(jobs, now, receipts);
    forall i, j | 0 <= i < |runs| && 0 <= j < |news|
      ensures Apart(runs[i], news[j])
    {
      var m := DueRunOrigin(jobs, now, receipts, j);
      if runs[i].due && runs[i].job.id == jobs[m].id {
        BoundApart(runs[i], jobs[m], now, receipts[m].start, receipts[m].error);
      }
    }
    SpacedJoin(runs, news);
  }

  lemma SpacedJoin(runs: seq<Run>, news: seq<Run>)
    requires Spaced(runs) && DistinctRuns(news)
    requires forall i, j :: 0 <= i < |runs| && 0 <= j < |news| ==> Apart(runs[i], news[j])
    ensures Spaced(runs + news)
  {
    var all := runs + news;
    assert forall k :: 0 <= k < |all| ==> all[k] == if k < |runs| then runs[k] else news[k - |runs|];
  }

  lemma SurvivorsEvolve(jobs: seq<Job>, now: int, receipts: seq<Receipt>, cronNext: CronNext, time0: int, time: int)
    requires |receipts| == |jobs| && InTime(receipts, now, time) && time0 <= now
    ensures AllEvolve(jobs, Survivors(jobs, now, receipts, cronNext), time0)
    ensures AtIsAt(jobs) ==> AtIsAt(Survivors(jobs, now, receipts, cronNext))
  {
    var rest := Survivors(jobs, now, receipts, cronNext);
    forall k | 0 <= k < |rest|
      ensures HasOrigin(jobs, rest[k], time0)
      ensures AtIsAt(jobs) && rest[k].schedule.kind.At? && rest[k].enabled && rest[k].nextRunAtMs.Some? ==>
                rest[k].nextRunAtMs == rest[k].schedule.atMs
    {
      var m := SurvivorOrigin(jobs, now, receipts, cronNext, k);
      SurvivorEvolves(jobs[m], receipts[m], now, time0, cronNext, rest[k]);
      assert Evolves(jobs[m], rest[k], time0);
    }
  }

  lemma BothKept(runs: seq<Run>, news: seq<Run>, store: seq<Job>, used: set<string>, time: int)
    requires Kept(runs, store, used, time) && Kept(news, store, used, time)
    ensures Kept(runs + news, store, used, time)
  {
    var all := runs + news;
    assert forall i :: 0 <= i < |all| ==> all[i] == if i < |runs| then runs[i] else news[i - |runs|];
  }

  /** A pass keeps all that is kept. */
  lemma PassKeeps(runs: seq<Run>, jobs: seq<Job>, now: int, receipts: seq<Receipt>, cronNext: CronNext,
                  used: set<string>, time0: int, time: int)
    requires |receipts| == |jobs| && InTime(receipts, now, time) && time0 <= now <= time
    requires Kept(runs, jobs, used, time0) && Spaced(runs) && Unique(jobs) && AtIsAt(jobs)
    ensures var news, rest := DueRuns(jobs, now, receipts), Survivors(jobs, now, receipts, cronNext);
            Kept(runs + news, rest, used, time) && Spaced(runs + news) && Unique(rest) && AtIsAt(rest)
  {
    var news, rest := DueRuns(jobs, now, receipts), Survivors(jobs, now, receipts, cronNext);
    SurvivorsEvolve(jobs, now, receipts, cronNext, time0, time);
    SurvivorsUnique(jobs, now, receipts, cronNext);
    EvolutionKeeps(runs, jobs, rest, used, time0, time);
    PassRunsAreKnown(jobs, now, receipts, used, time);
    PassBinds(jobs, now, receipts, cronNext, time);
    BothKept(runs, news, rest, used, time);
    PassRunsAreApart(runs, jobs, now, receipts, used, time);
  }

  // ---------------------------------------------------------------------------------------------
  // The service
  // ---------------------------------------------------------------------------------------------

  /** A job during a pass: one that expired is marked by an empty id. */
  function Marked(job: Job, now: int, r: Receipt, cronNext: CronNext): Job {
    if !IsDue(job, now) then job
    else if Expires(job) then AfterRun(job, r, cronNext).(enabled := false, id := "")
    else AfterRun(job, r, cronNext)
  }

  /** The jobs that are not marked. */
  function WithId(jobs: seq<Job>): seq<Job> {
    if jobs == [] then []
    else WithId(jobs[..|jobs| - 1]) + if jobs[|jobs| - 1].id == "" then [] else [jobs[|jobs| - 1]]
  }

  /** A pass that got as far as `i`. */
  ghost predicate MarkedTo(before: seq<Job>, jobs: seq<Job>, i: nat, now: int, receipts: seq<Receipt>,
                           cronNext: CronNext)
    requires |jobs| == |before| && |receipts| == i <= |jobs|
  {
    && (forall k :: 0 <= k < i ==> jobs[k] == Marked(before[k], now, receipts[k], cronNext))
    && (forall k :: i <= k < |jobs| ==> jobs[k] == before[k])
  }

  lemma MarkedStep(before: seq<Job>, jobs: seq<Job>, jobs': seq<Job>, i: nat, now: int, receipts: seq<Receipt>,
                   r: Receipt, cronNext: CronNext)
    requires |jobs| == |before| && |receipts| == i < |jobs| && MarkedTo(before, jobs, i, now, receipts, cronNext)
    requires jobs' == jobs[i := Marked(jobs[i], now, r, cronNext)]
    ensures MarkedTo(before, jobs', i + 1, now, receipts + [r], cronNext)
  {
  }

  /** All of a pass that got as far as `i`. */
  ghost predicate PassTo(before: seq<Job>, jobs: seq<Job>, runs0: seq<Run>, runs: seq<Run>, i: nat, now: int,
                         receipts: seq<Receipt>, time: int,
                         cronNext: CronNext) {
    && |jobs| == |before| && |receipts| == i <= |jobs| && MarkedTo(before, jobs, i, now, receipts, cronNext)
    && InTime(receipts, now, time) && runs == runs0 + DueRuns(before[..i], now, receipts)
  }

  lemma PassStep(before: seq<Job>, jobs: seq<Job>, jobs': seq<Job>, runs0: seq<Run>, runs: seq<Run>, runs': seq<Run>,
                 i: nat, now: int,
                 receipts: seq<Receipt>, r: Receipt, time: int, time': int, cronNext: CronNext)
    requires PassTo(before, jobs, runs0, runs, i, now, receipts, time, cronNext) && i < |jobs| && time <= time'
    requires jobs' == jobs[i := Marked(jobs[i], now, r, cronNext)]
    requires runs' == runs + if IsDue(jobs[i], now) then [Run(jobs[i], r.start, r.error, true)] else []
    requires now <= r.start <= r.updated <= r.rescheduled <= time'
    ensures PassTo(before, jobs', runs0, runs', i + 1, now, receipts + [r], time', cronNext)
  {
    MarkedStep(before, jobs, jobs', i, now, receipts, r, cronNext);
    DueRunsStep(before, i, now, receipts, r);
    InTimeStep(receipts, r, now, time, time');
  }

  lemma StillFirst(before: seq<Job>, jobs: seq<Job>, i: nat, now: int, receipts: seq<Receipt>, cronNext: CronNext)
    requires |jobs| == |before| && |receipts| == i < |jobs| && MarkedTo(before, jobs, i, now, receipts, cronNext)
             && Unique(before)
    ensures forall k :: 0 <= k < i ==> jobs[k].id != jobs[i].id
  {
    forall k | 0 <= k < i
      ensures jobs[k].id != jobs[i].id
    {
      MarkedId(before[k], now, receipts[k], cronNext);
    }
  }

  lemma InTimeStep(receipts: seq<Receipt>, r: Receipt, from: int, to: int, to': int)
    requires InTime(receipts, from, to) && to <= to' && from <= r.start <= r.updated <= r.rescheduled <= to'
    ensures InTime(receipts + [r], from, to')
  {
  }

  lemma MarkedId(job: Job, now: int, r: Receipt, cronNext: CronNext)
    ensures Marked(job, now, r, cronNext).id in {"", job.id}
  {
  }

  lemma DueRunsStep(jobs: seq<Job>, i: nat, now: int, receipts: seq<Receipt>, r: Receipt)
    requires i < |jobs| && |receipts| == i
    ensures DueRuns(jobs[..i + 1], now, receipts + [r]) ==
              DueRuns(jobs[..i], now, receipts) + if IsDue(jobs[i], now) then [Run(jobs[i], r.start, r.error, true)]
                  else []
  {
    assert jobs[..i + 1][..i] == jobs[..i] && (receipts + [r])[..i] == receipts;
  }

  method DropId(jobs: seq<Job>, id: string) returns (kept: seq<Job>)
    ensures kept == Without(jobs, id)
  {
    kept := [];
    for i := 0 to |jobs|
      invariant kept == Without(jobs[..i], id)
    {
      assert jobs[..i + 1][..i] == jobs[..i];
      if jobs[i].id != id {
        kept := kept + [jobs[i]];
      }
    }
    assert jobs[..|jobs|] == jobs;
  }

  method DropMarked(jobs: seq<Job>) returns (kept: seq<Job>)
    ensures kept == WithId(jobs)
  {
    kept := [];
    for i := 0 to |jobs|
      invariant kept == WithId(jobs[..i])
    {
      assert jobs[..i + 1][..i] == jobs[..i];
      if jobs[i].id != "" {
        kept := kept + [jobs[i]];
      }
    }
    assert jobs[..|jobs|] == jobs;
  }

  lemma {:induction false} MarkedToSurvivors(jobs: seq<Job>, marked: seq<Job>, now: int, receipts: seq<Receipt>,
                                             cronNext: CronNext)
    requires |receipts| == |jobs| == |marked| && forall k :: 0 <= k < |jobs| ==> jobs[k].id != ""
    requires forall k :: 0 <= k < |jobs| ==> marked[k] == Marked(jobs[k], now, receipts[k], cronNext)
    ensures WithId(marked) == Survivors(jobs, now, receipts, cronNext)
  {
    if jobs != [] {
      var n := |jobs| - 1;
      MarkedToSurvivors(jobs[..n], marked[..n], now, receipts[..n], cronNext);
    }
  }

  lemma {:induction false} NothingDue(jobs: seq<Job>, now: int, receipts: seq<Receipt>, cronNext: CronNext)
    requires |receipts| == |jobs| && DueRuns(jobs, now, receipts) == []
    ensures Survivors(jobs, now, receipts, cronNext) == jobs
  {
    if jobs != [] {
      var n := |jobs| - 1;
      NothingDue(jobs[..n], now, receipts[..n], cronNext);
      assert jobs == jobs[..n] + [jobs[n]];
    }
  }

  lemma NoneDue(jobs: seq<Job>, now: int, receipts: seq<Receipt>)
    requires |receipts| == |jobs| && DueRuns(jobs, now, receipts) == []
    ensures forall k :: 0 <= k < |jobs| ==> !IsDue(jobs[k], now)
  {
    forall k | 0 <= k < |jobs| && IsDue(jobs[k], now)
      ensures false
    {
      DueJobRuns(jobs, now, receipts, k);
    }
  }

  function MarkedPast(job: Job, now: int, cronNext: CronNext): Job {
    if IsPast(job, now) then Recomputed(job, now, cronNext).(enabled := false, id := "")
        else Recomputed(job, now, cronNext)
  }

  lemma {:induction false} MarkedToRecomputed(jobs: seq<Job>, marked: seq<Job>, now: int, cronNext: CronNext)
    requires |jobs| == |marked| && forall k :: 0 <= k < |jobs| ==> jobs[k].id != ""
    requires forall k :: 0 <= k < |jobs| ==> marked[k] == MarkedPast(jobs[k], now, cronNext)
    ensures WithId(marked) == RecomputedAll(jobs, now, cronNext)
  {
    if jobs != [] {
      var n := |jobs| - 1;
      MarkedToRecomputed(jobs[..n], marked[..n], now, cronNext);
    }
  }

  lemma {:induction false} NothingMarked(jobs: seq<Job>)
    requires forall k :: 0 <= k < |jobs| ==> jobs[k].id != ""
    ensures WithId(jobs) == jobs
  {
    if jobs != [] {
      var n := |jobs| - 1;
      NothingMarked(jobs[..n]);
      assert jobs == jobs[..n] + [jobs[n]];
    }
  }

  /** Computing the next runs anew, as each start of the service does, keeps all that is kept. */
  lemma RecomputeKeeps(runs: seq<Run>, jobs: seq<Job>, now: int, cronNext: CronNext, used: set<string>, time: int)
    requires Kept(runs, jobs, used, now) && Unique(jobs) && now <= time
    ensures var rest := RecomputedAll(jobs, now, cronNext); Kept(runs, rest, used, time) && Unique(rest) && AtIsAt(rest)
  {
    var rest := RecomputedAll(jobs, now, cronNext);
    RecomputedUnique(jobs, now, cronNext);
    forall k | 0 <= k < |rest|
      ensures HasOrigin(jobs, rest[k], now)
      ensures rest[k].schedule.kind.At? && rest[k].enabled && rest[k].nextRunAtMs.Some? ==>
              rest[k].nextRunAtMs == rest[k].schedule.atMs
    {
      var m := RecomputedOrigin(jobs, now, cronNext, k);
      assert Evolves(jobs[m], rest[k], now);
    }
    EvolutionKeeps(runs, jobs, rest, used, now, time);
  }

  class CronService {
    const clock: nat -> int
    const handler: nat -> Option<string>
    const cronNext: CronNext

    var jobs: seq<Job>
    var disk: seq<Job>
    var loaded: bool
    var running: bool
    /** How often the clock was read and the handler called. */
    var readings: nat
    var calls: nat
    /** Every execution, and every id ever given. */
    ghost var runs: seq<Run>
    ghost var used: set<string>

    constructor (disk: seq<Job>, clock: nat -> int, handler: nat -> Option<string>, cronNext: CronNext)
      requires Unique(disk) && forall i: nat, j: nat :: i <= j ==> clock(i) <= clock(j)
      ensures Valid() && this.disk == disk && runs == [] && !loaded && !running && readings == 0
      ensures this.clock == clock && this.handler == handler && this.cronNext == cronNext
    {
      this.disk, this.clock, this.handler, this.cronNext := disk, clock, handler, cronNext;
      jobs, loaded, running, readings, calls, runs := [], false, false, 0, 0, [];
      used := set j | j in disk :: j.id;
    }

    ghost predicate NeverRunsBackwards() {
      forall i: nat, j: nat :: i <= j ==> clock(i) <= clock(j)
    }

    /** The jobs of the service: in memory once they are loaded. */
    function Store(): seq<Job>
      reads this
    {
      if loaded then jobs else disk
    }

    ghost predicate RunsAreLogged()
      reads this
    {
      calls == |runs| && forall i :: 0 <= i < |runs| ==> runs[i].error == handler(i)
    }

    ghost predicate Valid()
      reads this
    {
      && NeverRunsBackwards()
      && Unique(Store()) && (loaded ==> disk == jobs) && (running ==> loaded && AtIsAt(jobs))
      && Kept(runs, Store(), used, clock(readings)) && Spaced(runs) && RunsAreLogged()
    }

    method NowMs() returns (now: int)
      modifies this`readings
      ensures now == clock(old(readings)) && readings == old(readings) + 1
    {
      now := clock(readings);
      readings := readings + 1;
    }

    method LoadStore()
      requires loaded ==> disk == jobs
      modifies this`jobs, this`loaded
      ensures loaded && jobs == old(Store()) == disk
    {
      if loaded {
        return;
      }
      loaded := true;
      jobs := disk;
    }

    method SaveStore()
      modifies this`disk
      ensures disk == jobs
    {
      disk := jobs;
    }

    /** The job at `i` runs.  It is looked up again by its id afterwards; it is there, since the handler
        leaves the store alone. */
    method ExecuteJob(i: nat, ghost due: bool) returns (removed: bool, ghost r: Receipt)
      requires NeverRunsBackwards() && RunsAreLogged()
      requires i < |jobs| && forall k :: 0 <= k < i ==> jobs[k].id != jobs[i].id
      modifies this`jobs, this`readings, this`calls, this`runs
      ensures jobs == old(jobs)[i := AfterRun(old(jobs[i]), r, cronNext)] && removed == Expires(old(jobs[i]))
      ensures runs == old(runs) + [Run(old(jobs[i]), r.start, r.error, due)] && RunsAreLogged()
      ensures readings >= old(readings)
      ensures clock(old(readings)) == r.start <= r.updated <= r.rescheduled <= clock(readings)
      ensures r.updated == clock(old(readings) + 1) && r.error == handler(|old(runs)|)
      ensures !old(jobs[i]).schedule.kind.At? ==> r.rescheduled == clock(old(readings) + 2)
    {
      hide ComputeNextRun;
      var start := NowMs();
      var snapshot := jobs[i];
      var error := handler(calls);
      calls := calls + 1;
      runs := runs + [Run(snapshot, start, error, due)];
      var it := 0;
      while jobs[it].id != snapshot.id
        invariant 0 <= it <= i
        decreases i - it
      {
        it := it + 1;
      }
      var updated := NowMs();
      var job := jobs[it].(lastStatus := if error.None? then "ok" else "error", lastError := error.GetOr(""),
                           lastRunAtMs := Some(start), updatedAtMs := updated);
      jobs := jobs[it := job];
      if snapshot.schedule.kind.At? {
        r := Receipt(start, updated, updated, error);
        if snapshot.deleteAfterRun {
          return true, r;
        }
        jobs := jobs[it := job.(enabled := false, nextRunAtMs := None)];
        return false, r;
      }
      var now := NowMs();
      r := Receipt(start, updated, now, error);
      var nextRun := ComputeNextRun(snapshot.schedule, now, cronNext);
      jobs := jobs[it := job.(nextRunAtMs := nextRun)];
      removed := false;
    }

    /** The body of the pass for one job. */
    method RunIfDue(i: nat, entry: int) returns (ran: bool, ghost r: Receipt)
      requires NeverRunsBackwards() && RunsAreLogged() && entry <= clock(readings)
      requires i < |jobs| && forall k :: 0 <= k < i ==> jobs[k].id != jobs[i].id
      modifies this`jobs, this`readings, this`calls, this`runs
      ensures jobs == old(jobs)[i := Marked(old(jobs[i]), entry, r, cronNext)] && ran == IsDue(old(jobs[i]), entry)
      ensures runs == old(runs) + (if ran then [Run(old(jobs[i]), r.start, r.error, true)] else []) && RunsAreLogged()
      ensures readings >= old(readings) && entry <= r.start <= r.updated <= r.rescheduled <= clock(readings)
    {
      r := Receipt(entry, entry, entry, None);
      ran := false;
      if jobs[i].enabled && jobs[i].nextRunAtMs.Some? && entry >= jobs[i].nextRunAtMs.value {
        var removeJob;
        removeJob, r := ExecuteJob(i, true);
        if removeJob {
          jobs := jobs[i := jobs[i].(enabled := false, id := "")];
        }
        ran := true;
      }
    }

    /** The loop of the pass. */
    method RunAllDue(entry: int) returns (changed: bool, ghost receipts: seq<Receipt>)
      requires NeverRunsBackwards() && RunsAreLogged() && entry <= clock(readings) && Unique(jobs)
      modifies this`jobs, this`readings, this`calls, this`runs
      ensures |receipts| == |jobs| == |old(jobs)| && InTime(receipts, entry, clock(readings))
              && readings >= old(readings)
      ensures forall k :: 0 <= k < |jobs| ==> jobs[k] == Marked(old(jobs)[k], entry, receipts[k], cronNext)
      ensures runs == old(runs) + DueRuns(old(jobs), entry, receipts) && RunsAreLogged()
      ensures changed <==> |runs| > |old(runs)|
    {
      receipts, changed := [], false;
      ghost var before := jobs;
      for i := 0 to |jobs|
        invariant PassTo(before, jobs, old(runs), runs, i, entry, receipts, clock(readings), cronNext)
        invariant readings >= old(readings) && entry <= clock(readings) && RunsAreLogged()
        invariant changed <==> |runs| > |old(runs)|
      {
        ghost var marked, done, time := jobs, runs, clock(readings);
        StillFirst(before, jobs, i, entry, receipts, cronNext);
        var ran;
        ghost var r;
        ran, r := RunIfDue(i, entry);
        changed := changed || ran;
        PassStep(before, marked, jobs, old(runs), done, runs, i, entry, receipts, r, time, clock(readings), cronNext);
        receipts := receipts + [r];
      }
      assert before[..|before|] == before;
    }

    /** The end of the pass. */
    method Settle(changed: bool, ghost before: seq<Job>, ghost now: int, ghost receipts: seq<Receipt>)
      requires |receipts| == |jobs| == |before| && forall k :: 0 <= k < |before| ==> before[k].id != ""
      requires forall k :: 0 <= k < |jobs| ==> jobs[k] == Marked(before[k], now, receipts[k], cronNext)
      requires changed <==> DueRuns(before, now, receipts) != []
      requires disk == before
      modifies this`jobs, this`disk
      ensures disk == jobs == Survivors(before, now, receipts, cronNext)
    {
      if changed {
        MarkedToSurvivors(before, jobs, now, receipts, cronNext);
        jobs := DropMarked(jobs);
        SaveStore();
      } else {
        NothingDue(before, now, receipts, cronNext);
        NoneDue(before, now, receipts);
        assert jobs == before;
      }
    }

    method RunPass() returns (ghost now: int, ghost receipts: seq<Receipt>)
      requires Valid() && running && jobs == Store()
      modifies this
      ensures Valid() && used == old(used) && running && loaded
      ensures now == clock(old(readings)) && |receipts| == |old(jobs)| && InTime(receipts, now, clock(readings))
      ensures jobs == Survivors(old(jobs), now, receipts, cronNext)
      ensures runs == old(runs) + DueRuns(old(jobs), now, receipts)
    {
      ghost var before := jobs;
      var entry := NowMs();
      now := entry;
      var changed;
      changed, receipts := RunAllDue(entry);
      assert changed <==> DueRuns(before, now, receipts) != [];
      Settle(changed, before, now, receipts);
      PassKeeps(old(runs), before, now, receipts, cronNext, used, clock(old(readings)), clock(readings));
    }

    /** One pass: exactly the due jobs run, once each and in order; see `Survivors` for what is left. */
    method RunDueJobs() returns (ghost now: int, ghost receipts: seq<Receipt>)
      requires Valid()
      modifies this
      ensures Valid() && used == old(used) && running == old(running)
      ensures !running ==> jobs == old(jobs) && disk == old(disk) && loaded == old(loaded) && runs == old(runs)
      ensures running ==>
                && loaded && now == clock(old(readings)) && |receipts| == |old(Store())|
                   && InTime(receipts, now, clock(readings))
                && jobs == Survivors(old(Store()), now, receipts, cronNext)
                && runs == old(runs) + DueRuns(old(Store()), now, receipts)
    {
      now, receipts := 0, [];
      if !running {
        return;
      }
      LoadStore();
      now, receipts := RunPass();
    }

    method RecomputeNextRuns()
      requires loaded && Unique(jobs)
      modifies this`jobs, this`readings
      ensures readings == old(readings) + 1 && jobs == RecomputedAll(old(jobs), clock(old(readings)), cronNext)
    {
      var now := NowMs();
      ghost var before := jobs;
      var changed := false;
      for i := 0 to |jobs|
        invariant |jobs| == |before| && readings == old(readings) + 1
        invariant forall k :: 0 <= k < i ==> jobs[k] == MarkedPast(before[k], now, cronNext)
        invariant forall k :: i <= k < |jobs| ==> jobs[k] == before[k]
        invariant !changed ==> forall k :: 0 <= k < i ==> jobs[k].id != ""
      {
        if jobs[i].enabled {
          jobs := jobs[i := jobs[i].(nextRunAtMs := ComputeNextRun(jobs[i].schedule, now, cronNext))];
          if jobs[i].nextRunAtMs.None? && jobs[i].schedule.kind.At? && jobs[i].schedule.atMs.Some?
              && jobs[i].schedule.atMs.value <= now {
            jobs := jobs[i := jobs[i].(enabled := false, id := "")];
            changed := true;
          }
        }
      }
      MarkedToRecomputed(before, jobs, now, cronNext);
      if changed {
        jobs := DropMarked(jobs);
      } else {
        NothingMarked(jobs);
      }
    }

    method Start()
      requires Valid()
      modifies this
      ensures Valid() && running && runs == old(runs) && used == old(used)
      ensures loaded && readings == old(readings) + 1
      ensures jobs == RecomputedAll(old(Store()), clock(old(readings)), cronNext)
    {
      running := true;
      LoadStore();
      ghost var before := jobs;
      RecomputeNextRuns();
      SaveStore();
      RecomputeKeeps(runs, before, clock(old(readings)), cronNext, used, clock(readings));
    }

    method Stop()
      requires Valid()
      modifies this`running
      ensures Valid() && !running
    {
      running := false;
    }

    /** The process ends; the next one finds the store on disk. */
    method Restart()
      requires Valid()
      modifies this`jobs, this`loaded, this`running
      ensures Valid() && !running && Store() == old(Store())
    {
      jobs, loaded, running := [], false, false;
    }

    /** A job with an id that no job of the store has, and if the job is not a cron job, none had before. */
    method AddJob(job: Job, generatedId: string) returns (added: Option<Job>)
      requires Valid() && (job.id == "" ==> generatedId != "")
      requires !HasId(Store(), if job.id == "" then generatedId else job.id)
      requires !job.schedule.kind.Cron? ==> (if job.id == "" then generatedId else job.id) !in used
      modifies this
      ensures Valid() && running == old(running) && runs == old(runs) && loaded
      ensures exists next ::
                && IsNextRun(next, job.schedule, clock(old(readings)), cronNext) && (added.Some? <==> next.Some?)
                && (added.Some? ==> added.value.nextRunAtMs == next)
      ensures added.Some? ==>
                && var start := clock(old(readings));
                && added.value == job.(id := if job.id != "" then job.id else generatedId, createdAtMs := start,
                                       updatedAtMs := start, nextRunAtMs := added.value.nextRunAtMs)
                && jobs == old(Store()) + [added.value] && used == old(used) + {added.value.id}
      ensures added.None? ==> jobs == old(Store()) && used == old(used)
    {
      hide Kept, Spaced, Unique, AtIsAt, HasId;
      LoadStore();
      ghost var before := jobs;
      var now := NowMs();
      var new' := job.(id := if job.id == "" then generatedId else job.id, createdAtMs := now, updatedAtMs := now);
      var nextRun := ComputeNextRun(new'.schedule, now, cronNext);
      NextRunIs(new'.schedule, now, cronNext);
      StoreKeeps(runs, before, used, now, clock(readings));
      if nextRun.None? {
        return None;
      }
      new' := new'.(nextRunAtMs := nextRun);
      AddKeeps(runs, before, new', used, now, clock(readings));
      jobs := jobs + [new'];
      used := used + {new'.id};
      SaveStore();
      added := Some(new');
    }

    method RemoveJob(jobId: string) returns (removed: bool)
      requires Valid()
      modifies this`jobs, this`disk, this`loaded
      ensures Valid() && loaded && jobs == Without(old(Store()), jobId)
      ensures removed <==> HasId(old(Store()), jobId)
    {
      hide Kept, Spaced, Unique, AtIsAt, HasId, Without;
      LoadStore();
      ghost var before := jobs;
      var kept := DropId(jobs, jobId);
      removed := |kept| < |jobs|;
      WithoutShrinks(before, jobId);
      WithoutKeeps(runs, before, jobId, used, clock(readings));
      if removed {
        jobs := kept;
        SaveStore();
      } else {
        WithoutNothing(before, jobId);
      }
    }

    method SwitchAt(i: nat, enabled: bool)
      requires i < |jobs|
      modifies this`jobs, this`readings
      ensures var t, t' := clock(old(readings)), clock(old(readings) + 1);
              jobs == old(jobs)[i := Switched(old(jobs[i]), enabled, t, t', cronNext)]
      ensures readings >= old(readings)
    {
      var updated := NowMs();
      var job := jobs[i].(enabled := enabled, updatedAtMs := updated);
      if enabled {
        var now := NowMs();
        job := job.(nextRunAtMs := ComputeNextRun(job.schedule, now, cronNext));
      } else {
        job := job.(nextRunAtMs := None);
      }
      jobs := jobs[i := job];
    }

    method EnableJob(jobId: string, enabled: bool) returns (job: Option<Job>, ghost i: nat)
      requires Valid()
      modifies this`jobs, this`disk, this`loaded, this`readings
      ensures Valid() && loaded
      ensures job.None? ==> jobs == old(Store()) && forall k :: 0 <= k < |jobs| ==> jobs[k].id != jobId
      ensures job.Some? ==> i < |old(Store())| && old(Store())[i].id == jobId && jobs == old(Store())[i := job.value]
                            && job.value == old(Store())[i].(enabled := enabled, updatedAtMs := clock(old(readings)),
                                                             nextRunAtMs := job.value.nextRunAtMs)
      ensures job.Some? ==>
                if enabled then IsNextRun(job.value.nextRunAtMs, job.value.schedule, clock(old(readings) + 1), cronNext)
                else job.value.nextRunAtMs.None?
    {
      LoadStore();
      ghost var before := jobs;
      i := 0;
      for k := 0 to |jobs|
        invariant jobs == before && readings == old(readings)
        invariant forall l :: 0 <= l < k ==> before[l].id != jobId
      {
        if jobs[k].id == jobId {
          i := k;
          SwitchAt(k, enabled);
          SaveStore();
          SwitchKeeps(runs, before, k, enabled, clock(old(readings)), clock(old(readings) + 1), cronNext, used,
              clock(readings));
          NextRunIs(before[k].schedule, clock(old(readings) + 1), cronNext);
          return Some(jobs[k]), k;
        }
      }
      job := None;
    }

    /** A run on request: the job is kept even if it is one to delete after its run. */
    method RunJob(jobId: string, force: bool) returns (found: bool, ghost i: nat, ghost r: Receipt)
      requires Valid()
      modifies this
      ensures Valid() && loaded && running == old(running) && used == old(used)
      ensures !found ==> jobs == old(Store()) && runs == old(runs)
                         && forall k :: 0 <= k < |jobs| ==> jobs[k].id != jobId || (!force && !jobs[k].enabled)
      ensures readings >= old(readings)
      ensures found ==> r.start == clock(old(readings)) && r.error == handler(|old(runs)|)
      ensures found ==> i < |old(Store())| && old(Store())[i].id == jobId && (force || old(Store())[i].enabled)
                        && jobs == old(Store())[i := AfterRun(old(Store())[i], r, cronNext)]
                        && runs == old(runs) + [Run(old(Store())[i], r.start, r.error, false)]
    {
      LoadStore();
      ghost var before := jobs;
      i, r := 0, Receipt(0, 0, 0, None);
      for k := 0 to |jobs|
        invariant jobs == before && readings == old(readings) && runs == old(runs) && calls == old(calls)
        invariant forall l :: 0 <= l < k ==> before[l].id != jobId
      {
        if jobs[k].id == jobId {
          if !force && !jobs[k].enabled {
            return false, i, r;
          }
          var removed;
          removed, r := ExecuteJob(k, false);
          SaveStore();
          ForcedKeeps(old(runs), before, k, r, cronNext, used, clock(old(readings)), clock(readings));
          return true, k, r;
        }
      }
      found := false;
    }
  }

  /** Anything that can be asked of the service, and the end of its process. */
  datatype Op =
    | Add(job: Job, generatedId: string)
    | Remove(jobId: string)
    | Enable(jobId: string, enabled: bool)
    | Force(jobId: string, force: bool)
    | Pass
    | StartService
    | StopService
    | RestartProcess

  function AddedId(op: Op): string
    requires op.Add?
  {
    if op.job.id == "" then op.generatedId else op.job.id
  }

  /** The ids that jobs can have after these operations. */
  function PossibleIds(ids: set<string>, ops: seq<Op>): set<string> {
    if ops == [] then ids
    else
      var before := PossibleIds(ids, ops[..|ops| - 1]);
      match ops[|ops| - 1]
      case Add(_, _) => before + {AddedId(ops[|ops| - 1])}
      case Remove(jobId) => before - {jobId}
      case _ => before
  }

  function Ids(jobs: seq<Job>): set<string> {
    set j | j in jobs :: j.id
  }

  /** No job is added while another has its id; and the id of a job that is not a cron job is new. */
  predicate FreshIds(ops: seq<Op>, ids: set<string>, used: set<string>) {
    && (forall i :: 0 <= i < |ops| && ops[i].Add? ==>
          AddedId(ops[i]) != "" && AddedId(ops[i]) !in PossibleIds(ids, ops[..i]))
    && (forall i :: 0 <= i < |ops| && ops[i].Add? && !ops[i].job.schedule.kind.Cron? ==> AddedId(ops[i]) !in used)
    && (forall i, j :: 0 <= i < j < |ops| && ops[i].Add? && ops[j].Add? && !ops[j].job.schedule.kind.Cron? ==>
          AddedId(ops[i]) != AddedId(ops[j]))
  }

  lemma IdsHave(jobs: seq<Job>, id: string)
    ensures HasId(jobs, id) <==> id in Ids(jobs)
  {
    NoSuchId(jobs, id);
  }

  lemma IdsWithout(jobs: seq<Job>, id: string)
    ensures Ids(Without(jobs, id)) <= Ids(jobs) - {id}
  {
    forall j | j in Without(jobs, id)
      ensures j in jobs && j.id != id
    {
      var k :| 0 <= k < |Without(jobs, id)| && Without(jobs, id)[k] == j;
      var m := WithoutOrigin(jobs, id, k);
    }
  }

  lemma IdsSurvive(jobs: seq<Job>, now: int, receipts: seq<Receipt>, cronNext: CronNext)
    requires |receipts| == |jobs|
    ensures Ids(Survivors(jobs, now, receipts, cronNext)) <= Ids(jobs)
  {
    var rest := Survivors(jobs, now, receipts, cronNext);
    forall j | j in rest
      ensures j.id in Ids(jobs)
    {
      var k :| 0 <= k < |rest| && rest[k] == j;
      var m := SurvivorOrigin(jobs, now, receipts, cronNext, k);
      assert jobs[m] in jobs;
    }
  }

  lemma IdsRecomputed(jobs: seq<Job>, now: int, cronNext: CronNext)
    ensures Ids(RecomputedAll(jobs, now, cronNext)) <= Ids(jobs)
  {
    var rest := RecomputedAll(jobs, now, cronNext);
    forall j | j in rest
      ensures j.id in Ids(jobs)
    {
      var k :| 0 <= k < |rest| && rest[k] == j;
      var m := RecomputedOrigin(jobs, now, cronNext, k);
      assert jobs[m] in jobs;
    }
  }

  lemma IdsUpdated(jobs: seq<Job>, i: nat, job: Job)
    requires i < |jobs| && job.id == jobs[i].id
    ensures Ids(jobs[i := job]) <= Ids(jobs)
  {
    assert jobs[i] in jobs;
    forall j | j in jobs[i := job]
      ensures j.id in Ids(jobs)
    {
      var k :| 0 <= k < |jobs| && jobs[i := job][k] == j;
      assert jobs[k] in jobs;
    }
  }

  lemma NextIds(ids: set<string>, ops: seq<Op>, n: nat)
    requires n < |ops|
    ensures PossibleIds(ids, ops[..n + 1]) ==
              match ops[n]
              case Add(_, _) => PossibleIds(ids, ops[..n]) + {AddedId(ops[n])}
              case Remove(jobId) => PossibleIds(ids, ops[..n]) - {jobId}
              case _ => PossibleIds(ids, ops[..n])
  {
    assert ops[..n + 1][..n] == ops[..n];
  }

  /** Over any run, `RunDueJobs` executes an `At` job at most once, and starts an `Every` job again no
      sooner than its interval after its last start. */
  method Perform(service: CronService, ops: seq<Op>)
    requires service.Valid() && FreshIds(ops, Ids(service.Store()), service.used)
    modifies service
    ensures service.Valid()
    ensures forall i, j :: 0 <= i < j < |service.runs| ==>
              var first, second := service.runs[i], service.runs[j];
              first.due && second.due && first.job.id == second.job.id ==>
                && !second.job.schedule.kind.At?
                && (second.job.schedule.kind.Every? && second.job.schedule.everyMs.Some? ==>
                      second.start - first.start >= second.job.schedule.everyMs.value)
  {
    ghost var ids := Ids(service.Store());
    for n := 0 to |ops|
      invariant service.Valid() && Ids(service.Store()) <= PossibleIds(ids, ops[..n])
      invariant forall i :: n <= i < |ops| && ops[i].Add? && !ops[i].job.schedule.kind.Cron? ==>
                  AddedId(ops[i]) !in service.used
    {
      NextIds(ids, ops, n);
      PerformOne(service, ops[n]);
    }
    assert forall i, j :: 0 <= i < j < |service.runs| ==> Apart(service.runs[i], service.runs[j]);
  }

  method PerformOne(service: CronService, op: Op)
    requires service.Valid()
    requires op.Add? ==> AddedId(op) != "" && AddedId(op) !in Ids(service.Store())
    requires op.Add? && !op.job.schedule.kind.Cron? ==> AddedId(op) !in service.used
    modifies service
    ensures service.Valid() && service.used <= old(service.used) + if op.Add? then {AddedId(op)} else {}
    ensures Ids(service.Store()) <= match op
                                    case Add(_, _) => old(Ids(service.Store())) + {AddedId(op)}
                                    case Remove(jobId) => old(Ids(service.Store())) - {jobId}
                                    case _ => old(Ids(service.Store()))
  {
    ghost var jobs := service.Store();
    match op {
      case Add(job, generatedId) =>
        IdsHave(jobs, AddedId(op));
        var _ := service.AddJob(job, generatedId);
      case Remove(jobId) =>
        IdsWithout(jobs, jobId);
        var _ := service.RemoveJob(jobId);
      case Enable(jobId, enabled) =>
        var job;
        ghost var i;
        job, i := service.EnableJob(jobId, enabled);
        if job.Some? {
          IdsUpdated(jobs, i, job.value);
        }
      case Force(jobId, force) =>
        var found;
        ghost var i, r;
        found, i, r := service.RunJob(jobId, force);
        if found {
          IdsUpdated(jobs, i, AfterRun(jobs[i], r, service.cronNext));
        }
      case Pass =>
        ghost var now, receipts := service.RunDueJobs();
        if service.running {
          IdsSurvive(jobs, now, receipts, service.cronNext);
        }
      case StartService =>
        IdsRecomputed(jobs, service.clock(service.readings), service.cronNext);
        service.Start();
      case StopService =>
        service.Stop();
      case RestartProcess =>
        service.Restart();
    }
  }

  // ---------------------------------------------------------------------------------------------
  // A run on request does not count as the run of an `At` job that is to be deleted
  // ---------------------------------------------------------------------------------------------

  /** After a run an `At` job is due exactly if it is to be deleted after its run and was due before. */
  lemma StillDueIff(job: Job, r: Receipt, now: int, cronNext: CronNext)
    requires job.schedule.kind.At?
    ensures IsDue(AfterRun(job, r, cronNext), now) <==> job.deleteAfterRun && IsDue(job, now)
  {
  }

  /** The jobs of an id that a pass executes: the one of the store, if it is due. */
  lemma PassRunsJobIff(jobs: seq<Job>, now: int, receipts: seq<Receipt>, i: nat)
    requires |receipts| == |jobs| && i < |jobs| && Unique(jobs)
    ensures (exists k ::
               0 <= k < |DueRuns(jobs, now, receipts)| && DueRuns(jobs, now, receipts)[k].job.id == jobs[i].id)
            <==> IsDue(jobs[i], now)
  {
    var runs := DueRuns(jobs, now, receipts);
    if IsDue(jobs[i], now) {
      DueJobRuns(jobs, now, receipts, i);
    }
    forall k | 0 <= k < |runs| && runs[k].job.id == jobs[i].id
      ensures IsDue(jobs[i], now)
    {
      var m := DueRunOrigin(jobs, now, receipts, k);
      assert m == i;
    }
  }

  lemma RunAgainIff(jobs: seq<Job>, i: nat, r: Receipt, now: int, receipts: seq<Receipt>, cronNext: CronNext,
      runs: seq<Run>, all: seq<Run>)
    requires i < |jobs| && jobs[i].schedule.kind.At? && |receipts| == |jobs|
    requires var between := jobs[i := AfterRun(jobs[i], r, cronNext)];
             Unique(between) && all == runs + DueRuns(between, now, receipts)
    ensures (exists k :: |runs| <= k < |all| && all[k].job.id == jobs[i].id && all[k].due)
            <==> jobs[i].deleteAfterRun && IsDue(jobs[i], now)
  {
    var between := jobs[i := AfterRun(jobs[i], r, cronNext)];
    var news := DueRuns(between, now, receipts);
    StillDueIff(jobs[i], r, now, cronNext);
    PassRunsJobIff(between, now, receipts, i);
    NewsAreDue(between, now, receipts);
    assert forall k :: 0 <= k < |news| ==> all[|runs| + k] == news[k];
    assert forall k :: |runs| <= k < |all| ==> all[k] == news[k - |runs|];
  }

  /** The next pass executes an `At` job that was run on request again exactly if the job is to be deleted
      after its run and was due. */
  method RunJobThenPass(service: CronService, jobId: string, force: bool)
    returns (found: bool, ghost i: nat, ghost now: int)
    requires service.Valid() && service.running
    modifies service
    ensures service.Valid() && service.running && now >= service.clock(old(service.readings))
    ensures found <==> exists k :: 0 <= k < |old(service.Store())| && old(service.Store())[k].id == jobId
                                   && (force || old(service.Store())[k].enabled)
    ensures found ==>
              && i < |old(service.Store())| && old(service.Store())[i].id == jobId
              && |service.runs| > |old(service.runs)| && service.runs[|old(service.runs)|].job ==
                 old(service.Store())[i]
              && !service.runs[|old(service.runs)|].due
    ensures found && old(service.Store())[i].schedule.kind.At? ==>
              ((exists k :: |old(service.runs)| + 1 <= k < |service.runs| && service.runs[k].job.id == jobId
                  && service.runs[k].due)
               <==> old(service.Store())[i].deleteAfterRun && IsDue(old(service.Store())[i], now))
  {
    ghost var jobs, r, receipts := service.Store(), Receipt(0, 0, 0, None), [];
    found, i, r := service.RunJob(jobId, force);
    ghost var runs := service.runs;
    now, receipts := service.RunDueJobs();
    if found && jobs[i].schedule.kind.At? {
      RunAgainIff(jobs, i, r, now, receipts, service.cronNext, runs, service.runs);
    }
  }

  lemma NewsAreDue(jobs: seq<Job>, now: int, receipts: seq<Receipt>)
    requires |receipts| == |jobs|
    ensures forall k :: 0 <= k < |DueRuns(jobs, now, receipts)| ==> DueRuns(jobs, now, receipts)[k].due
  {
    forall k | 0 <= k < |DueRuns(jobs, now, receipts)|
      ensures DueRuns(jobs, now, receipts)[k].due
    {
      var m := DueRunOrigin(jobs, now, receipts, k);
    }
  }

  lemma AloneRecomputed(job: Job, now: int, cronNext: CronNext)
    requires !IsPast(job, now)
    ensures RecomputedAll([job], now, cronNext) == [Recomputed(job, now, cronNext)]
  {
    assert [job][..0] == [];
  }

  /** A service with one job, whose clock shows how often it was read. */
  method StartWith(job: Job) returns (service: CronService)
    requires job.id != "" && job.schedule.kind.At? && job.schedule.atMs == Some(1)
    ensures fresh(service) && service.Valid() && service.running && service.runs == [] && service.readings == 1
    ensures service.clock(1) == 1 && service.Store() == [if job.enabled then job.(nextRunAtMs := Some(1)) else job]
  {
    service := new CronService([job], (n: nat) => n, (n: nat) => None, (e: string, n: int) => None);
    AloneRecomputed(job, 0, service.cronNext);
    service.Start();
  }

  /** One such job, executed on request and then by a pass. */
  method DueJobRunsTwice() returns (service: CronService)
    ensures service.Valid() && service.runs != [] && service.runs[0].job.id == "j" && !service.runs[0].due
    ensures service.runs[0].job.schedule.kind.At? && service.runs[0].job.deleteAfterRun
    ensures exists k :: 1 <= k < |service.runs| && service.runs[k].job.id == "j" && service.runs[k].due
  {
    var schedule, payload := Schedule(At, Some(1), None, "", ""), Payload("agent_turn", "", false, "", "", "");
    service := StartWith(Job("j", "", true, schedule, payload, None, None, "", "", 0, 0, true));
    assert service.Store()[0].id == "j";
    var found;
    ghost var i, now;
    found, i, now := RunJobThenPass(service, "j", false);
  }

  // ---------------------------------------------------------------------------------------------
  // What becomes of a job, field by field
  // ---------------------------------------------------------------------------------------------

  lemma AfterRunIs(job: Job, r: Receipt, cronNext: CronNext)
    ensures var done := AfterRun(job, r, cronNext);
            && done == job.(enabled := done.enabled, nextRunAtMs := done.nextRunAtMs, lastRunAtMs := Some(r.start),
                            updatedAtMs := r.updated, lastStatus := done.lastStatus, lastError := done.lastError)
            && (r.error == None ==> done.lastStatus == "ok" && done.lastError == "")
            && (r.error.Some? ==> done.lastStatus == "error" && done.lastError == r.error.value)
            && (job.schedule.kind.At? && job.deleteAfterRun ==>
                  done.enabled == job.enabled && done.nextRunAtMs == job.nextRunAtMs)
            && (job.schedule.kind.At? && !job.deleteAfterRun ==> !done.enabled && done.nextRunAtMs.None?)
            && (!job.schedule.kind.At? ==>
                  done.enabled == job.enabled && IsNextRun(done.nextRunAtMs, job.schedule, r.rescheduled, cronNext))
  {
    NextRunIs(job.schedule, r.rescheduled, cronNext);
  }

  /** A pass executes exactly the enabled jobs whose next run is not ahead, each once and in the order of the store. */
  lemma PassRunsIff(jobs: seq<Job>, now: int, receipts: seq<Receipt>, i: nat)
    requires |receipts| == |jobs| && i < |jobs| && Unique(jobs)
    ensures var runs := DueRuns(jobs, now, receipts);
            (exists k :: 0 <= k < |runs| && runs[k] == Run(jobs[i], receipts[i].start, receipts[i].error, true))
            <==> jobs[i].enabled && jobs[i].nextRunAtMs.Some? && jobs[i].nextRunAtMs.value <= now
  {
    PassRunsJobIff(jobs, now, receipts, i);
    if IsDue(jobs[i], now) {
      DueJobRuns(jobs, now, receipts, i);
    }
  }

  lemma {:induction false} PassRunsInOrder(jobs: seq<Job>, now: int, receipts: seq<Receipt>, k: nat, l: nat)
    returns (i: nat, j: nat)
    requires |receipts| == |jobs| && k < l < |DueRuns(jobs, now, receipts)|
    ensures i < j < |jobs|
    ensures DueRuns(jobs, now, receipts)[k].job == jobs[i] && DueRuns(jobs, now, receipts)[l].job == jobs[j]
  {
    var n := |jobs| - 1;
    var front := DueRuns(jobs[..n], now, receipts[..n]);
    if l < |front| {
      i, j := PassRunsInOrder(jobs[..n], now, receipts[..n], k, l);
    } else {
      i := DueRunOrigin(jobs[..n], now, receipts[..n], k);
      j := n;
    }
  }

  /** What is left keeps the order of the store. */
  lemma {:induction false} SurvivorsInOrder(jobs: seq<Job>, now: int, receipts: seq<Receipt>, cronNext: CronNext,
                                            k: nat, l: nat) returns (i: nat, j: nat)
    requires |receipts| == |jobs| && k < l < |Survivors(jobs, now, receipts, cronNext)|
    ensures i < j < |jobs|
    ensures Survivors(jobs, now, receipts, cronNext)[k].id == jobs[i].id
    ensures Survivors(jobs, now, receipts, cronNext)[l].id == jobs[j].id
  {
    var n := |jobs| - 1;
    var front := Survivors(jobs[..n], now, receipts[..n], cronNext);
    if l < |front| {
      i, j := SurvivorsInOrder(jobs[..n], now, receipts[..n], cronNext, k, l);
    } else {
      i := SurvivorOrigin(jobs[..n], now, receipts[..n], cronNext, k);
      j := n;
    }
  }

  /** Where a pass leaves a job: as it was if it was not due; gone if it was to be deleted; disabled if it was another
      `At` job; else with its next run, seen from the end of its execution. */
  lemma PassLeaves(jobs: seq<Job>, now: int, receipts: seq<Receipt>, cronNext: CronNext, i: nat)
    requires |receipts| == |jobs| && i < |jobs| && Unique(jobs)
    ensures var job, left := jobs[i], Survivors(jobs, now, receipts, cronNext);
            if !(job.enabled && job.nextRunAtMs.Some? && job.nextRunAtMs.value <= now) then job in left
            else if job.schedule.kind.At? && job.deleteAfterRun
            then forall k :: 0 <= k < |left| ==> left[k].id != job.id
            else exists k :: 0 <= k < |left| && left[k].id == job.id && left[k].schedule == job.schedule
                             && (if job.schedule.kind.At? then !left[k].enabled
                                 else left[k].enabled && IsNextRun(left[k].nextRunAtMs, job.schedule,
                                                                   receipts[i].rescheduled, cronNext))
  {
    var job, left := jobs[i], Survivors(jobs, now, receipts, cronNext);
    AfterRunIs(job, receipts[i], cronNext);
    if IsDue(job, now) && Expires(job) {
      forall k | 0 <= k < |left|
        ensures left[k].id != job.id
      {
        var m := SurvivorOrigin(jobs, now, receipts, cronNext, k);
      }
    } else {
      SurvivorsComplete(jobs, now, receipts, cronNext, i);
      var job' :| job' in left && Survives(job, receipts[i], now, cronNext, job');
      var k :| 0 <= k < |left| && left[k] == job';
    }
  }

  /** An interval job that a pass executed is executed by the next one exactly if its interval is over since. */
  method PassThenPass(service: CronService, i: nat)
    returns (ghost first: int, ghost rescheduled: int, ghost second: int, ghost between: nat)
    requires service.Valid() && service.running && i < |service.Store()|
    requires service.Store()[i].schedule.kind.Every? && service.Store()[i].schedule.everyMs.Some?
    requires service.Store()[i].schedule.everyMs.value > 0
    modifies service
    ensures service.Valid() && first == service.clock(old(service.readings)) <= rescheduled <= second
    ensures |old(service.runs)| <= between <= |service.runs|
    ensures var job := old(service.Store()[i]);
            job.enabled && job.nextRunAtMs.Some? && job.nextRunAtMs.value <= first ==>
              && (exists k :: |old(service.runs)| <= k < between && service.runs[k].job == job && service.runs[k].due)
              && ((exists k :: between <= k < |service.runs| && service.runs[k].job.id == job.id && service.runs[k].due)
                  <==> second >= rescheduled + job.schedule.everyMs.value)
  {
    ghost var jobs, runs0, receipts, again := service.Store(), service.runs, [], [];
    first, receipts := service.RunDueJobs();
    ghost var runs1, left := service.runs, service.jobs;
    between, rescheduled := |runs1|, receipts[i].rescheduled;
    second, again := service.RunDueJobs();
    if jobs[i].enabled && jobs[i].nextRunAtMs.Some? && jobs[i].nextRunAtMs.value <= first {
      FirstPass(jobs, first, receipts, service.cronNext, i, runs0, runs1, service.runs);
      SecondPass(jobs, first, receipts, service.cronNext, i, left, second, again, runs1, service.runs);
    }
  }

  lemma FirstPass(jobs: seq<Job>, now: int, receipts: seq<Receipt>, cronNext: CronNext, i: nat, runs0: seq<Run>,
                  runs1: seq<Run>, runs: seq<Run>)
    requires |receipts| == |jobs| && i < |jobs| && Unique(jobs) && IsDue(jobs[i], now)
    requires runs1 == runs0 + DueRuns(jobs, now, receipts) && runs1 <= runs
    ensures exists k :: |runs0| <= k < |runs1| && runs[k].job == jobs[i] && runs[k].due
  {
    PassRunsIff(jobs, now, receipts, i);
    var news := DueRuns(jobs, now, receipts);
    var k :| 0 <= k < |news| && news[k] == Run(jobs[i], receipts[i].start, receipts[i].error, true);
    assert runs[|runs0| + k] == news[k];
  }

  lemma SecondPass(jobs: seq<Job>, now: int, receipts: seq<Receipt>, cronNext: CronNext, i: nat, left: seq<Job>,
                   second: int, again: seq<Receipt>, runs1: seq<Run>, runs: seq<Run>)
    requires |receipts| == |jobs| && i < |jobs| && Unique(jobs) && IsDue(jobs[i], now)
    requires jobs[i].schedule.kind.Every? && jobs[i].schedule.everyMs.Some? && jobs[i].schedule.everyMs.value > 0
    requires left == Survivors(jobs, now, receipts, cronNext) && |again| == |left|
    requires runs == runs1 + DueRuns(left, second, again)
    ensures (exists k :: |runs1| <= k < |runs| && runs[k].job.id == jobs[i].id && runs[k].due)
            <==> second >= receipts[i].rescheduled + jobs[i].schedule.everyMs.value
  {
    var news := DueRuns(left, second, again);
    PassLeaves(jobs, now, receipts, cronNext, i);
    SurvivorsUnique(jobs, now, receipts, cronNext);
    var k :| 0 <= k < |left| && left[k].id == jobs[i].id && left[k].schedule == jobs[i].schedule && left[k].enabled
             && IsNextRun(left[k].nextRunAtMs, jobs[i].schedule, receipts[i].rescheduled, cronNext);
    PassRunsJobIff(left, second, again, k);
    NewsAreDue(left, second, again);
    assert forall m :: 0 <= m < |news| ==> runs[|runs1| + m] == news[m];
    assert forall m :: |runs1| <= m < |runs| ==> runs[m] == news[m - |runs1|];
  }

  /** A start computes every next run anew and drops the `At` jobs whose time is over. */
  lemma {:induction false} StartLeaves(jobs: seq<Job>, now: int, cronNext: CronNext, i: nat)
    requires i < |jobs| && Unique(jobs)
    ensures var job, left := jobs[i], RecomputedAll(jobs, now, cronNext);
            if job.enabled && job.schedule.kind.At? && job.schedule.atMs.Some? && job.schedule.atMs.value <= now
            then forall k :: 0 <= k < |left| ==> left[k].id != job.id
            else exists k :: 0 <= k < |left| && left[k] == job.(nextRunAtMs := left[k].nextRunAtMs)
                             && (if job.enabled then IsNextRun(left[k].nextRunAtMs, job.schedule, now, cronNext)
                                 else left[k].nextRunAtMs == job.nextRunAtMs)
  {
    var job, left := jobs[i], RecomputedAll(jobs, now, cronNext);
    NextRunIs(job.schedule, now, cronNext);
    if IsPast(job, now) {
      forall k | 0 <= k < |left|
        ensures left[k].id != job.id
      {
        var m := RecomputedOrigin(jobs, now, cronNext, k);
      }
    } else {
      RecomputedStays(jobs, now, cronNext, i);
      var k :| 0 <= k < |left| && left[k] == Recomputed(job, now, cronNext);
    }
  }

  lemma {:induction false} RecomputedStays(jobs: seq<Job>, now: int, cronNext: CronNext, i: nat)
    requires i < |jobs| && !IsPast(jobs[i], now)
    ensures Recomputed(jobs[i], now, cronNext) in RecomputedAll(jobs, now, cronNext)
  {
    if i < |jobs| - 1 {
      RecomputedStays(jobs[..|jobs| - 1], now, cronNext, i);
    }
  }

  lemma {:induction false} RecomputedInOrder(jobs: seq<Job>, now: int, cronNext: CronNext, k: nat, l: nat)
    returns (i: nat, j: nat)
    requires k < l < |RecomputedAll(jobs, now, cronNext)|
    ensures i < j < |jobs|
    ensures RecomputedAll(jobs, now, cronNext)[k].id == jobs[i].id
    ensures RecomputedAll(jobs, now, cronNext)[l].id == jobs[j].id
  {
    var n := |jobs| - 1;
    if l < |RecomputedAll(jobs[..n], now, cronNext)| {
      i, j := RecomputedInOrder(jobs[..n], now, cronNext, k, l);
    } else {
      i := RecomputedOrigin(jobs[..n], now, cronNext, k);
      j := n;
    }
  }

  /** Removing an id keeps the jobs of every other id, in order. */
  lemma {:induction false} RemovalLeaves(jobs: seq<Job>, id: string)
    ensures forall job :: job in Without(jobs, id) <==> job in jobs && job.id != id
  {
    if jobs != [] {
      RemovalLeaves(jobs[..|jobs| - 1], id);
    }
  }

  lemma {:induction false} RemovalKeepsOrder(jobs: seq<Job>, id: string, k: nat, l: nat) returns (i: nat, j: nat)
    requires k < l < |Without(jobs, id)|
    ensures i < j < |jobs| && Without(jobs, id)[k] == jobs[i] && Without(jobs, id)[l] == jobs[j]
  {
    var n := |jobs| - 1;
    if l < |Without(jobs[..n], id)| {
      i, j := RemovalKeepsOrder(jobs[..n], id, k, l);
    } else {
      i := WithoutOrigin(jobs[..n], id, k);
      j := n;
    }
  }

  predicate HasId(jobs: seq<Job>, id: string) {
    jobs != [] && (jobs[|jobs| - 1].id == id || HasId(jobs[..|jobs| - 1], id))
  }

  lemma {:induction false} NoSuchId(jobs: seq<Job>, id: string)
    ensures HasId(jobs, id) <==> exists k :: 0 <= k < |jobs| && jobs[k].id == id
  {
    if jobs != [] {
      var n := |jobs| - 1;
      NoSuchId(jobs[..n], id);
      assert forall k :: 0 <= k < n ==> jobs[..n][k] == jobs[k];
    }
  }

  function Without(jobs: seq<Job>, id: string): seq<Job> {
    if jobs == [] then []
    else Without(jobs[..|jobs| - 1], id) + if jobs[|jobs| - 1].id == id then [] else [jobs[|jobs| - 1]]
  }

  function Switched(job: Job, enabled: bool, updated: int, now: int, cronNext: CronNext): Job {
    job.(enabled := enabled, updatedAtMs := updated, nextRunAtMs := if enabled then
        ComputeNextRun(job.schedule, now, cronNext) else None)
  }

  lemma {:induction false} WithoutShrinks(jobs: seq<Job>, id: string)
    ensures |Without(jobs, id)| <= |jobs|
    ensures |Without(jobs, id)| < |jobs| <==> HasId(jobs, id)
  {
    if jobs != [] {
      WithoutShrinks(jobs[..|jobs| - 1], id);
    }
  }

  lemma {:induction false} WithoutNothing(jobs: seq<Job>, id: string)
    requires !HasId(jobs, id)
    ensures Without(jobs, id) == jobs
  {
    if jobs != [] {
      WithoutNothing(jobs[..|jobs| - 1], id);
      assert jobs == jobs[..|jobs| - 1] + [jobs[|jobs| - 1]];
    }
  }

  lemma {:induction false} WithoutOrigin(jobs: seq<Job>, id: string, k: nat) returns (m: nat)
    requires k < |Without(jobs, id)|
    ensures m < |jobs| && Without(jobs, id)[k] == jobs[m]
  {
    var n := |jobs| - 1;
    if k < |Without(jobs[..n], id)| {
      m := WithoutOrigin(jobs[..n], id, k);
    } else {
      m := n;
    }
  }

  lemma {:induction false} WithoutUnique(jobs: seq<Job>, id: string)
    requires Unique(jobs)
    ensures Unique(Without(jobs, id))
  {
    if jobs != [] {
      var n := |jobs| - 1;
      var front := Without(jobs[..n], id);
      WithoutUnique(jobs[..n], id);
      forall k | 0 <= k < |front|
        ensures front[k].id != jobs[n].id
      {
        var m := WithoutOrigin(jobs[..n], id, k);
        assert jobs[..n][m] == jobs[m];
      }
    }
  }

  lemma WithoutKeeps(runs: seq<Run>, jobs: seq<Job>, id: string, used: set<string>, time: int)
    requires Kept(runs, jobs, used, time) && Unique(jobs)
    ensures var rest := Without(jobs, id);
            Kept(runs, rest, used, time) && Unique(rest) && (AtIsAt(jobs) ==> AtIsAt(rest))
  {
    var rest := Without(jobs, id);
    WithoutUnique(jobs, id);
    forall k | 0 <= k < |rest|
      ensures HasOrigin(jobs, rest[k], time)
      ensures AtIsAt(jobs) && rest[k].schedule.kind.At? && rest[k].enabled && rest[k].nextRunAtMs.Some? ==>
                rest[k].nextRunAtMs == rest[k].schedule.atMs
    {
      var m := WithoutOrigin(jobs, id, k);
      assert Evolves(jobs[m], rest[k], time);
    }
    EvolutionKeeps(runs, jobs, rest, used, time, time);
  }

  /** Time goes by. */
  lemma StoreKeeps(runs: seq<Run>, jobs: seq<Job>, used: set<string>, time: int, time': int)
    requires Kept(runs, jobs, used, time) && time <= time'
    ensures Kept(runs, jobs, used, time')
  {
    assert forall i :: 0 <= i < |runs| ==> KnownRun(runs[i], used, time) ==> KnownRun(runs[i], used, time');
  }

  lemma AddKeeps(runs: seq<Run>, jobs: seq<Job>, job: Job, used: set<string>, now: int, time: int)
    requires Kept(runs, jobs, used, now) && Unique(jobs) && now <= time && job.id != "" && !HasId(jobs, job.id)
    requires !job.schedule.kind.Cron? ==> job.id !in used
    requires Later(job.schedule, job.nextRunAtMs, now)
    ensures Kept(runs, jobs + [job], used + {job.id}, time) && Unique(jobs + [job])
            && (AtIsAt(jobs) ==> AtIsAt(jobs + [job]))
  {
    var all := jobs + [job];
    NoSuchId(jobs, job.id);
    forall i, k | 0 <= i < |runs| && 0 <= k < |all| && runs[i].due && runs[i].job.id == all[k].id
      ensures Binds(runs[i], all[k])
    {
      assert KnownRun(runs[i], used, now);
      assert k < |jobs| ==> all[k] == jobs[k];
    }
    assert forall i :: 0 <= i < |runs| ==> KnownRun(runs[i], used, now) ==> KnownRun(runs[i], used + {job.id}, time);
  }

  lemma UpdateKeeps(runs: seq<Run>, jobs: seq<Job>, i: nat, job: Job, used: set<string>, time: int, time': int)
    requires i < |jobs| && Kept(runs, jobs, used, time) && Unique(jobs) && time <= time' && Evolves(jobs[i], job, time)
    ensures Kept(runs, jobs[i := job], used, time') && Unique(jobs[i := job])
  {
    var store' := jobs[i := job];
    forall k | 0 <= k < |store'|
      ensures HasOrigin(jobs, store'[k], time)
    {
      assert Evolves(jobs[k], store'[k], time);
    }
    EvolutionKeeps(runs, jobs, store', used, time, time');
  }

  lemma SwitchKeeps(runs: seq<Run>, jobs: seq<Job>, i: nat, enabled: bool, updated: int, now: int, cronNext: CronNext,
                    used: set<string>, time: int)
    requires i < |jobs| && Kept(runs, jobs, used, updated) && Unique(jobs) && updated <= now && updated <= time
    ensures var store' := jobs[i := Switched(jobs[i], enabled, updated, now, cronNext)];
            Kept(runs, store', used, time) && Unique(store') && (AtIsAt(jobs) ==> AtIsAt(store'))
  {
    UpdateKeeps(runs, jobs, i, Switched(jobs[i], enabled, updated, now, cronNext), used, updated, time);
  }

  /** A run on request binds nothing, and undoes nothing. */
  lemma ForcedKeeps(runs: seq<Run>, jobs: seq<Job>, i: nat, r: Receipt, cronNext: CronNext, used: set<string>,
                    time: int, time': int)
    requires i < |jobs| && Kept(runs, jobs, used, time) && Unique(jobs) && Spaced(runs)
    requires time <= r.start <= r.updated <= r.rescheduled <= time'
    ensures var store' := jobs[i := AfterRun(jobs[i], r, cronNext)];
            && Kept(runs + [Run(jobs[i], r.start, r.error, false)], store', used, time') && Unique(store')
            && Spaced(runs + [Run(jobs[i], r.start, r.error, false)])
            && (AtIsAt(jobs) ==> AtIsAt(store'))
  {
    UpdateKeeps(runs, jobs, i, AfterRun(jobs[i], r, cronNext), used, time, time');
    var all := runs + [Run(jobs[i], r.start, r.error, false)];
    assert forall k :: 0 <= k < |runs| ==> all[k] == runs[k];
  }
}
