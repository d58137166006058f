/** The cron plugin of packages/cron/index.ts: duration strings, the time-based run gate,
    job registration with its `lastExecutions` record, and the discovery of `cron.ts` /
    `cron.js` files under the jobs directory. The clock and each job function's success
    are parameters. */
module Cron {
  import opened Strings
  import opened Opt
  import opened Routes

  // ---------------------------------------------------------------------------
  // parseDuration

  predicate IsDigit(c: char)
  {
    '0' <= c <= '9'
  }

  predicate IsUnit(c: char)
  {
    c == 's' || c == 'm' || c == 'h' || c == 'd'
  }

  /** The end of the run of digits that starts at `i`. */
  function RunEnd(s: string, i: nat): (j: nat)
    requires i <= |s|
    ensures i <= j <= |s|
    ensures forall k :: i <= k < j ==> IsDigit(s[k])
    ensures j == |s| || !IsDigit(s[j])
    decreases |s| - i
  {
    if i < |s| && IsDigit(s[i]) then RunEnd(s, i + 1) else i
  }

  /** `/(\d+)([smhd])/` can match starting at `k`: digits from `k` and a unit right after
      the longest run of them (a shorter run is followed by a digit, never a unit). */
  predicate MatchAt(s: string, k: nat)
  {
    k < |s| && IsDigit(s[k]) && RunEnd(s, k) < |s| && IsUnit(s[RunEnd(s, k)])
  }

  /** The leftmost match at or after `i`. */
  function FirstMatch(s: string, i: nat): (r: Option<nat>)
    requires i <= |s|
    ensures r.Some? ==> i <= r.value && MatchAt(s, r.value)
    ensures r.Some? ==> forall k :: i <= k < r.value ==> !MatchAt(s, k)
    ensures r.None? ==> forall k :: i <= k ==> !MatchAt(s, k)
    decreases |s| - i
  {
    if i == |s| then None
    else if MatchAt(s, i) then Some(i)
    else FirstMatch(s, i + 1)
  }

  /** `parseInt(ds, 10)` of a string of decimal digits. */
  function DecimalValue(ds: string): nat
    requires forall k :: 0 <= k < |ds| ==> IsDigit(ds[k])
  {
    if |ds| == 0 then 0
    else
      assert IsDigit(ds[|ds| - 1]);
      DecimalValue(ds[..|ds| - 1]) * 10 + (ds[|ds| - 1] as int - '0' as int)
  }

  /** Milliseconds per unit. */
  function Multiplier(u: char): nat
  {
    match u
    case 's' => 1000
    case 'm' => 60 * 1000
    case 'h' => 60 * 60 * 1000
    case 'd' => 24 * 60 * 60 * 1000
    case _ => 0
  }

  /** `parseDuration(duration)`: the first `<digits><unit>` in milliseconds, 0 when the
      string is empty or holds none. */
  function ParseDuration(d: string): (ms: nat)
    ensures d == "" ==> ms == 0
    ensures (forall k :: 0 <= k ==> !MatchAt(d, k)) ==> ms == 0
    ensures FirstMatch(d, 0).Some? ==>
            var k := FirstMatch(d, 0).value;
            ms == DecimalValue(d[k..RunEnd(d, k)]) * Multiplier(d[RunEnd(d, k)])
  {
    if d == "" then 0
    else
      match FirstMatch(d, 0)
      case None => 0
      case Some(k) =>
        var end := RunEnd(d, k);
        DecimalValue(d[k..end]) * Multiplier(d[end])
  }

  lemma {:induction false} DecimalOfNatToString(n: nat)
    ensures forall k :: 0 <= k < |NatToString(n)| ==> IsDigit(NatToString(n)[k])
    ensures DecimalValue(NatToString(n)) == n
    decreases n
  {
    NatToStringDigits(n);
    if n >= 10 {
      DecimalOfNatToString(n / 10);
      var s := NatToString(n);
      assert s[..|s| - 1] == NatToString(n / 10);
    }
  }

  lemma {:induction false} RunEndOfDigits(ds: string, rest: string, i: nat)
    requires forall k :: 0 <= k < |ds| ==> IsDigit(ds[k])
    requires |rest| > 0 && !IsDigit(rest[0])
    requires i <= |ds|
    ensures RunEnd(ds + rest, i) == |ds|
    decreases |ds| - i
  {
    var s := ds + rest;
    if i < |ds| {
      assert s[i] == ds[i];
      RunEndOfDigits(ds, rest, i + 1);
    } else {
      assert s[i] == rest[0];
    }
  }

  /** A duration written as a number and a unit reads back as that many units. */
  lemma DurationRoundTrip(n: nat, u: char)
    requires IsUnit(u)
    ensures ParseDuration(NatToString(n) + [u]) == n * Multiplier(u)
  {
    var ds := NatToString(n);
    var s := ds + [u];
    DecimalOfNatToString(n);
    RunEndOfDigits(ds, [u], 0);
    assert MatchAt(s, 0);
    assert FirstMatch(s, 0) == Some(0);
    assert s[0..|ds|] == ds;
  }

  // ---------------------------------------------------------------------------
  // Run gating and registration

  /** A job's `cronConfig`. */
  datatype CronConfig = CronConfig(enabled: bool, useTime: bool, cronTime: string, timeZone: string,
                                   timeBetween: string, runOnStart: bool)

  /** What importing a `cron.ts`/`cron.js` file gives: nothing when the import throws;
      otherwise its `cronConfig` export, whether its `cronTime` is a string and whether
      its default export is a function. */
  datatype Loaded = ImportFailed | Imported(cronConfig: Option<CronConfig>, cronTimeIsString: bool, defaultIsFunction: bool)

  /** A scheduled `CronJob`. */
  datatype Job = Job(name: string, cronTime: string, timeZone: string)

  /** `lastExecutions`: job name to the time (ms) its function last completed. */
  type Executions = map<string, int>

  /** `shouldExecuteTimeBased(jobName, timeBetween)` at time `now`. */
  function ShouldExecute(last: Executions, name: string, timeBetween: string, now: int): (b: bool)
    ensures name !in last ==> b
    ensures name in last ==> (b <==> now - last[name] >= ParseDuration(timeBetween))
  {
    if name !in last then true else now - last[name] >= ParseDuration(timeBetween)
  }

  /** Whether a tick runs the job function. */
  predicate Runs(last: Executions, name: string, c: CronConfig, now: int)
  {
    !(c.useTime && !ShouldExecute(last, name, c.timeBetween, now))
  }

  /** How the awaited job function of one tick settles: it completes at time `done` (ms),
      which `new Date()` reads after the `await`, or it throws. */
  datatype RunOutcome = Completed(done: int) | Threw

  /** The record after one `onTick` at time `now` whose job function settles as `outcome`. */
  function AfterTick(last: Executions, name: string, c: CronConfig, now: int, outcome: RunOutcome): Executions
  {
    if Runs(last, name, c, now) && outcome.Completed? then last[name := outcome.done] else last
  }

  /** The checks of `loadCronJobsFromDir` before registering. */
  predicate ValidModule(m: Loaded)
  {
    m.Imported? && m.cronConfig.Some? && m.cronTimeIsString && m.defaultIsFunction
  }

  datatype CronState = CronState(jobs: seq<Job>, lastExecutions: Executions)

  /** Whether the `CronJob` constructor takes a schedule and a time zone; when it
      throws, the error reaches the catch block of the walk and nothing is registered. */
  type Accepts = (string, string) -> bool

  /** One cron file found: skipped when invalid, disabled or refused by the `CronJob`
      constructor; otherwise scheduled, and ticked at once (at `now`, settling as `outcome`
      says) with `runOnStart`. */
  function RegisterStep(st: CronState, name: string, m: Loaded, now: int, outcome: RunOutcome, accepts: Accepts): (r: CronState)
    ensures |st.jobs| <= |r.jobs| <= |st.jobs| + 1 && r.jobs[..|st.jobs|] == st.jobs
    ensures |r.jobs| == |st.jobs| + 1 <==>
              ValidModule(m) && m.cronConfig.value.enabled && accepts(m.cronConfig.value.cronTime, m.cronConfig.value.timeZone)
    ensures r.lastExecutions != st.lastExecutions ==> |r.jobs| == |st.jobs| + 1 && m.cronConfig.value.runOnStart && outcome.Completed?
  {
    if !ValidModule(m) || !m.cronConfig.value.enabled then st
    else if !accepts(m.cronConfig.value.cronTime, m.cronConfig.value.timeZone) then st
    else
      var c := m.cronConfig.value;
      var jobs := st.jobs + [Job(name, c.cronTime, c.timeZone)];
      if c.runOnStart then CronState(jobs, AfterTick(st.lastExecutions, name, c, now, outcome))
      else CronState(jobs, st.lastExecutions)
  }

  // ---------------------------------------------------------------------------
  // Discovery

  /** The job name: the directory relative to the jobs root, or "root" for the root. */
  function JobName(rel: seq<string>): (name: string)
    ensures rel == [] ==> name == "root"
    ensures rel != [] ==> name == Join(rel, "/")
  {
    if rel == [] then "root" else Join(rel, "/")
  }

  predicate IsCronFile(name: string)
  {
    name == "cron.ts" || name == "cron.js"
  }

  /** The cron files under `rel`, as (directory, file name), in listing order with
      directories entered where they are listed. */
  function Candidates(rel: seq<string>, entries: seq<Entry>): (r: seq<(seq<string>, string)>)
    ensures forall k :: 0 <= k < |r| ==> IsCronFile(r[k].1) && |rel| <= |r[k].0| && r[k].0[..|rel|] == rel
    decreases entries
  {
    if |entries| == 0 then []
    else CandidatesOf(rel, entries[0]) + Candidates(rel, entries[1..])
  }

  function CandidatesOf(rel: seq<string>, e: Entry): (r: seq<(seq<string>, string)>)
    ensures forall k :: 0 <= k < |r| ==> IsCronFile(r[k].1) && |rel| <= |r[k].0| && r[k].0[..|rel|] == rel
    decreases e
  {
    match e
    case Dir(name, children) =>
      var inner := Candidates(rel + [name], children);
      assert forall k :: 0 <= k < |inner| ==> inner[k].0[..|rel|] == rel by {
        forall k | 0 <= k < |inner| ensures inner[k].0[..|rel|] == rel {
          assert inner[k].0[..|rel|] == inner[k].0[..|rel| + 1][..|rel|];
        }
      }
      inner
    case File(name) => if IsCronFile(name) then [(rel, name)] else []
  }

  /** Registering the found files in order, each with its module (a file missing from
      `modules` counts as a failed import) and its run-on-start outcome. */
  function RegisterAll(st: CronState, found: seq<(seq<string>, string)>, modules: map<seq<string>, Loaded>,
                       now: int, outcome: string -> RunOutcome, accepts: Accepts): CronState
    decreases |found|
  {
    if |found| == 0 then st
    else
      var (dir, file) := found[|found| - 1];
      var before := RegisterAll(st, found[..|found| - 1], modules, now, outcome, accepts);
      var m := if dir + [file] in modules then modules[dir + [file]] else ImportFailed;
      RegisterStep(before, JobName(dir), m, now, outcome(JobName(dir)), accepts)
  }

  lemma {:induction false} RegisterAllAppend(st: CronState, a: seq<(seq<string>, string)>, b: seq<(seq<string>, string)>,
                                             modules: map<seq<string>, Loaded>, now: int, outcome: string -> RunOutcome, accepts: Accepts)
    ensures RegisterAll(st, a + b, modules, now, outcome, accepts) == RegisterAll(RegisterAll(st, a, modules, now, outcome, accepts), b, modules, now, outcome, accepts)
    decreases |b|
  {
    if |b| == 0 {
      assert a + b == a;
    } else {
      assert (a + b)[..|a + b| - 1] == a + b[..|b| - 1];
      RegisterAllAppend(st, a, b[..|b| - 1], modules, now, outcome, accepts);
    }
  }

  lemma CandidatesSnoc(rel: seq<string>, entries: seq<Entry>, i: nat)
    requires i < |entries|
    ensures Candidates(rel, entries[..i + 1]) == Candidates(rel, entries[..i]) + CandidatesOf(rel, entries[i])
    decreases i
  {
    if i > 0 {
      assert entries[..i + 1][1..] == entries[1..][..i];
      assert entries[..i][1..] == entries[1..][..i - 1];
      CandidatesSnoc(rel, entries[1..], i - 1);
    } else {
      assert entries[..1][1..] == [];
    }
  }

  /** The plugin's state: the scheduled jobs and the module-level `lastExecutions`. */
  class CronPlugin {
    var jobs: seq<Job>
    var lastExecutions: Executions

    function State(): CronState
      reads this
    {
      CronState(jobs, lastExecutions)
    }

    constructor()
      ensures jobs == [] && lastExecutions == map[]
    {
      jobs := [];
      lastExecutions := map[];
    }

    /** `onTick` at time `now`: skipped with `useTime` before the interval has passed;
        otherwise the job function runs and, only if it completes, its completion time
        is recorded. */
    method OnTick(name: string, c: CronConfig, now: int, outcome: RunOutcome) returns (ran: bool)
      modifies this`lastExecutions
      ensures ran <==> Runs(old(lastExecutions), name, c, now)
      ensures ran && outcome.Completed? ==> lastExecutions == old(lastExecutions)[name := outcome.done]
      ensures !(ran && outcome.Completed?) ==> lastExecutions == old(lastExecutions)
    {
      if c.useTime && !ShouldExecute(lastExecutions, name, c.timeBetween, now) {
        return false;
      }
      ran := true;
      if outcome.Completed? {
        lastExecutions := lastExecutions[name := outcome.done];
      }
    }

    /** `registerCronJob(jobName, cronModule)`: a disabled job is not scheduled, and
        neither is one whose schedule the `CronJob` constructor refuses (`thrown`). */
    method RegisterCronJob(name: string, c: CronConfig, now: int, outcome: RunOutcome, accepts: Accepts)
      returns (thrown: bool)
      modifies this
      ensures thrown <==> c.enabled && !accepts(c.cronTime, c.timeZone)
      ensures !c.enabled || thrown ==> jobs == old(jobs) && lastExecutions == old(lastExecutions)
      ensures c.enabled && !thrown ==> jobs == old(jobs) + [Job(name, c.cronTime, c.timeZone)]
      ensures c.enabled && !thrown && c.runOnStart ==> lastExecutions == AfterTick(old(lastExecutions), name, c, now, outcome)
      ensures c.enabled && !thrown && !c.runOnStart ==> lastExecutions == old(lastExecutions)
    {
      thrown := false;
      if !c.enabled {
        return;
      }
      if !accepts(c.cronTime, c.timeZone) {
        return true;
      }
      jobs := jobs + [Job(name, c.cronTime, c.timeZone)];
      if c.runOnStart {
        var _ := OnTick(name, c, now, outcome);
      }
    }

    /** `loadCronJobsFromDir(dir, cronJobsDir)` for the directory `rel` below the jobs root
        listing `entries`. */
    method LoadCronJobsFromDir(rel: seq<string>, entries: seq<Entry>, modules: map<seq<string>, Loaded>,
                               now: int, outcome: string -> RunOutcome, accepts: Accepts)
      modifies this
      ensures State() == RegisterAll(old(State()), Candidates(rel, entries), modules, now, outcome, accepts)
      decreases entries
    {
      ghost var start := State();
      for i := 0 to |entries|
        invariant State() == RegisterAll(start, Candidates(rel, entries[..i]), modules, now, outcome, accepts)
      {
        ghost var mid := State();
        CandidatesSnoc(rel, entries, i);
        RegisterAllAppend(start, Candidates(rel, entries[..i]), CandidatesOf(rel, entries[i]), modules, now, outcome, accepts);
        match entries[i] {
          case Dir(name, children) =>
            LoadCronJobsFromDir(rel + [name], children, modules, now, outcome, accepts);
          case File(name) =>
            if IsCronFile(name) {
              var name' := JobName(rel);
              var m := if rel + [name] in modules then modules[rel + [name]] else ImportFailed;
              if ValidModule(m) {
                var _ := RegisterCronJob(name', m.cronConfig.value, now, outcome(name'), accepts);
              }
              assert [(rel, name)][..0] == [];
            }
        }
      }
      assert entries[..|entries|] == entries;
    }
  }

  // ---------------------------------------------------------------------------
  // Properties

  /** After a run that completed at `done`, a time-gated tick before the interval has
      elapsed since that completion is skipped, and one at or after it runs. */
  lemma TooSoonSkipped(last: Executions, name: string, c: CronConfig, now: int, done: int, later: int)
    requires c.useTime && Runs(last, name, c, now)
    ensures var after := AfterTick(last, name, c, now, Completed(done));
            Runs(after, name, c, later) <==> later - done >= ParseDuration(c.timeBetween)
  {
  }

  /** A failing job leaves the record as it was, so it is retried at the next tick. */
  lemma FailureNotRecorded(last: Executions, name: string, c: CronConfig, now: int)
    ensures AfterTick(last, name, c, now, Threw) == last
  {
  }

  /** The `k`-th found file has a valid, enabled module whose schedule is accepted. */
  predicate Schedulable(found: seq<(seq<string>, string)>, modules: map<seq<string>, Loaded>, accepts: Accepts, k: int)
  {
    0 <= k < |found| && found[k].0 + [found[k].1] in modules &&
    var m := modules[found[k].0 + [found[k].1]];
    ValidModule(m) && m.cronConfig.value.enabled && accepts(m.cronConfig.value.cronTime, m.cronConfig.value.timeZone)
  }

  /** The job the `k`-th found file schedules. */
  function JobFor(found: seq<(seq<string>, string)>, modules: map<seq<string>, Loaded>, k: int): Job
    requires 0 <= k < |found| && found[k].0 + [found[k].1] in modules
    requires ValidModule(modules[found[k].0 + [found[k].1]])
  {
    var c := modules[found[k].0 + [found[k].1]].cronConfig.value;
    Job(JobName(found[k].0), c.cronTime, c.timeZone)
  }

  /** `job` was scheduled for the `k`-th found file: that file is schedulable, and the job
      is named after its directory and runs on its module's schedule and time zone. */
  predicate ScheduledFor(job: Job, found: seq<(seq<string>, string)>, modules: map<seq<string>, Loaded>, accepts: Accepts, k: int)
  {
    Schedulable(found, modules, accepts, k) && job == JobFor(found, modules, k)
  }

  /** The jobs from position `from` on are each scheduled for one of the found files. */
  ghost predicate AllScheduled(jobs: seq<Job>, from: nat, found: seq<(seq<string>, string)>, modules: map<seq<string>, Loaded>, accepts: Accepts)
  {
    forall j :: from <= j < |jobs| ==> HasSource(jobs[j], found, modules, accepts)
  }

  ghost predicate HasSource(job: Job, found: seq<(seq<string>, string)>, modules: map<seq<string>, Loaded>, accepts: Accepts)
  {
    exists k :: ScheduledFor(job, found, modules, accepts, k)
  }

  /** Every scheduled job comes from a valid, enabled module of a cron file found in the
      tree, and is named after that file's directory. */
  lemma {:induction false} JobsFromValidModules(st: CronState, found: seq<(seq<string>, string)>,
                                                modules: map<seq<string>, Loaded>, now: int, outcome: string -> RunOutcome, accepts: Accepts)
    ensures var r := RegisterAll(st, found, modules, now, outcome, accepts);
            |st.jobs| <= |r.jobs| && r.jobs[..|st.jobs|] == st.jobs && AllScheduled(r.jobs, |st.jobs|, found, modules, accepts)
    decreases |found|
  {
    if |found| > 0 {
      var init := found[..|found| - 1];
      JobsFromValidModules(st, init, modules, now, outcome, accepts);
      var before := RegisterAll(st, init, modules, now, outcome, accepts);
      var r := RegisterAll(st, found, modules, now, outcome, accepts);
      LastStep(st, found, modules, now, outcome, accepts);
      assert r.jobs[..|st.jobs|] == r.jobs[..|before.jobs|][..|st.jobs|];
      forall j | |st.jobs| <= j < |r.jobs|
        ensures HasSource(r.jobs[j], found, modules, accepts)
      {
        if j < |before.jobs| {
          assert r.jobs[j] == before.jobs[j];
          assert HasSource(before.jobs[j], init, modules, accepts);
          var k :| ScheduledFor(before.jobs[j], init, modules, accepts, k);
          assert found[k] == init[k];
          assert ScheduledFor(r.jobs[j], found, modules, accepts, k);
        } else {
          assert ScheduledFor(r.jobs[j], found, modules, accepts, |found| - 1);
        }
      }
      assert AllScheduled(r.jobs, |st.jobs|, found, modules, accepts);
    } else {
      assert RegisterAll(st, found, modules, now, outcome, accepts) == st;
    }
  }

  /** The last found file adds at most its own job, scheduled for it. */
  lemma LastStep(st: CronState, found: seq<(seq<string>, string)>, modules: map<seq<string>, Loaded>,
                 now: int, outcome: string -> RunOutcome, accepts: Accepts)
    requires |found| > 0
    ensures var before := RegisterAll(st, found[..|found| - 1], modules, now, outcome, accepts);
            var r := RegisterAll(st, found, modules, now, outcome, accepts);
            |before.jobs| <= |r.jobs| <= |before.jobs| + 1 && r.jobs[..|before.jobs|] == before.jobs &&
            (|r.jobs| == |before.jobs| + 1 <==> Schedulable(found, modules, accepts, |found| - 1)) &&
            (|r.jobs| == |before.jobs| + 1 ==> ScheduledFor(r.jobs[|before.jobs|], found, modules, accepts, |found| - 1))
  {
    var before := RegisterAll(st, found[..|found| - 1], modules, now, outcome, accepts);
    var dir, file := found[|found| - 1].0, found[|found| - 1].1;
    var m := if dir + [file] in modules then modules[dir + [file]] else ImportFailed;
    assert RegisterAll(st, found, modules, now, outcome, accepts) == RegisterStep(before, JobName(dir), m, now, outcome(JobName(dir)), accepts);
  }

  /** Conversely, every found cron file with a valid, enabled module whose schedule the
      `CronJob` constructor accepts gets its job among the newly scheduled ones. */
  lemma {:induction false} ValidModulesScheduled(st: CronState, found: seq<(seq<string>, string)>,
                                                 modules: map<seq<string>, Loaded>, now: int, outcome: string -> RunOutcome,
                                                 accepts: Accepts, k: int)
    requires Schedulable(found, modules, accepts, k)
    ensures var r := RegisterAll(st, found, modules, now, outcome, accepts);
            exists j :: |st.jobs| <= j < |r.jobs| && r.jobs[j] == JobFor(found, modules, k)
    decreases |found|
  {
    var init := found[..|found| - 1];
    var before := RegisterAll(st, init, modules, now, outcome, accepts);
    var r := RegisterAll(st, found, modules, now, outcome, accepts);
    LastStep(st, found, modules, now, outcome, accepts);
    JobsFromValidModules(st, init, modules, now, outcome, accepts);
    if k == |found| - 1 {
      assert r.jobs[|before.jobs|] == JobFor(found, modules, k);
    } else {
      assert init[k] == found[k];
      assert Schedulable(init, modules, accepts, k);
      ValidModulesScheduled(st, init, modules, now, outcome, accepts, k);
      var j :| |st.jobs| <= j < |before.jobs| && before.jobs[j] == JobFor(init, modules, k);
      assert r.jobs[j] == r.jobs[..|before.jobs|][j];
    }
  }
}
