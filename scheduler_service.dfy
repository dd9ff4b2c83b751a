/** The job registry of the scheduler service: the `jobs` dictionary and the
    running flag. The scheduling library itself is opaque; whether it accepts
    a trigger is the abstract `accepts`, and running the monitor is reported
    back as a `JobAction` instead of being awaited. */
module Scheduler {
  import opened Wrappers
  import opened Text

  /** The configuration of one job. `nextRun` is filled in only by status
      queries, which are not part of this model. */
  datatype JobConfig = JobConfig(
    id: string,
    name: string,
    description: string,
    endpoint: string,
    scheduleType: string,
    scheduleValue: string,
    enabled: bool,
    lastRun: Option<string>,
    nextRun: Option<string>,
    runCount: int)

  /** A job as declared: enabled, never run. */
  function NewJob(id: string, name: string, description: string, endpoint: string,
                  scheduleType: string, scheduleValue: string): (j: JobConfig)
    ensures j.id == id && j.endpoint == endpoint
    ensures j.scheduleType == scheduleType && j.scheduleValue == scheduleValue
    ensures j.enabled && j.lastRun == None && j.nextRun == None && j.runCount == 0
  {
    JobConfig(id, name, description, endpoint, scheduleType, scheduleValue, true, None, None, 0)
  }

  /** A trigger built from a job's schedule. */
  datatype Trigger = Interval(minutes: int) | Cron(minute: string, hour: string, day: string, month: string, dayOfWeek: string)

  /** The trigger for a schedule: `interval` needs an integer, `cron` exactly
      five whitespace-separated fields; anything else raises. */
  function ParseTrigger(scheduleType: string, scheduleValue: string): (r: Option<Trigger>)
    ensures r.Some? <==>
      || (scheduleType == "interval" && ParseInt(scheduleValue).Some?)
      || (scheduleType == "cron" && |Words(scheduleValue)| == 5)
    ensures r.Some? && r.value.Interval? ==> Some(r.value.minutes) == ParseInt(scheduleValue)
    ensures r.Some? && r.value.Cron? ==>
      Words(scheduleValue) == [r.value.minute, r.value.hour, r.value.day, r.value.month, r.value.dayOfWeek]
  {
    if scheduleType == "interval" then
      match ParseInt(scheduleValue)
      case Some(n) => Some(Interval(n))
      case None => None
    else if scheduleType == "cron" then
      var parts := Words(scheduleValue);
      if |parts| == 5 then Some(Cron(parts[0], parts[1], parts[2], parts[3], parts[4])) else None
    else None
  }

  /** The scheduler's own validation of a trigger (it may still raise). */
  type Acceptance = Trigger -> bool

  /** What a run of a job does after its bookkeeping. */
  datatype JobAction = NotFound | RunMonitor | MonitorMissing | UnknownEndpoint

  const MonitorEndpoint: string := "nintendo_monitor"

  /** The action for an endpoint: only the monitor endpoint runs anything. */
  function ActionFor(endpoint: string, hasMonitor: bool): (a: JobAction)
    ensures a == RunMonitor <==> endpoint == MonitorEndpoint && hasMonitor
    ensures a == UnknownEndpoint <==> endpoint != MonitorEndpoint
    ensures a != NotFound
  {
    if endpoint == MonitorEndpoint then (if hasMonitor then RunMonitor else MonitorMissing)
    else UnknownEndpoint
  }

  // ---------------------------------------------------------------------
  // The registry as a value

  /** The registry with the job `id`, if present, switched on or off. */
  function SetEnabled(jobs: map<string, JobConfig>, id: string, on: bool): (r: map<string, JobConfig>)
    ensures r.Keys == jobs.Keys
    ensures forall k :: k in r && k != id ==> r[k] == jobs[k]
    ensures id in jobs ==> r[id] == jobs[id].(enabled := on)
  {
    if id in jobs then jobs[id := jobs[id].(enabled := on)] else jobs
  }

  function ActiveIds(jobs: map<string, JobConfig>): set<string> {
    set k | k in jobs && jobs[k].enabled
  }

  function PausedIds(jobs: map<string, JobConfig>): set<string> {
    set k | k in jobs && !jobs[k].enabled
  }

  datatype SchedulerStatus = SchedulerStatus(running: bool, totalJobs: nat, activeJobs: nat, pausedJobs: nat)

  /** The status report: every job is either active or paused. */
  function StatusOf(running: bool, jobs: map<string, JobConfig>): (s: SchedulerStatus)
    ensures s.running == running
    ensures s.activeJobs + s.pausedJobs == s.totalJobs == |jobs|
  {
    var active, paused := ActiveIds(jobs), PausedIds(jobs);
    assert active + paused == jobs.Keys;
    assert active !! paused;
    SchedulerStatus(running, |jobs|, |active|, |paused|)
  }

  /** Pausing an active job moves exactly one job from active to paused, and
      resuming it afterwards restores the registry. */
  lemma PauseThenResume(running: bool, jobs: map<string, JobConfig>, id: string)
    requires id in jobs && jobs[id].enabled
    ensures var paused := SetEnabled(jobs, id, false);
      && StatusOf(running, paused).activeJobs == StatusOf(running, jobs).activeJobs - 1
      && StatusOf(running, paused).pausedJobs == StatusOf(running, jobs).pausedJobs + 1
      && SetEnabled(paused, id, true) == jobs
  {
    PauseMovesOne(running, jobs, id);
    ResumeUndoesPause(jobs, id);
  }

  lemma PauseMovesOne(running: bool, jobs: map<string, JobConfig>, id: string)
    requires id in jobs && jobs[id].enabled
    ensures var paused := SetEnabled(jobs, id, false);
      && StatusOf(running, paused).activeJobs == StatusOf(running, jobs).activeJobs - 1
      && StatusOf(running, paused).pausedJobs == StatusOf(running, jobs).pausedJobs + 1
  {
    var paused := SetEnabled(jobs, id, false);
    var active, inactive := ActiveIds(jobs), PausedIds(jobs);
    assert id in active && id !in inactive;
    assert ActiveIds(paused) == active - {id} by {
      forall k ensures k in ActiveIds(paused) <==> k in active && k != id {
        if k == id {
        }
      }
    }
    assert PausedIds(paused) == inactive + {id} by {
      forall k ensures k in PausedIds(paused) <==> k in inactive || k == id {
        if k == id {
        }
      }
    }
    assert |active - {id}| == |active| - 1;
    assert |inactive + {id}| == |inactive| + 1;
  }

  lemma ResumeUndoesPause(jobs: map<string, JobConfig>, id: string)
    requires id in jobs && jobs[id].enabled
    ensures SetEnabled(SetEnabled(jobs, id, false), id, true) == jobs
  {
    assert jobs[id].(enabled := false).(enabled := true) == jobs[id];
  }

  /** The run bookkeeping: the job's last run is now and its count goes up by one. */
  function Bumped(j: JobConfig, now: string): (r: JobConfig)
    ensures r.runCount == j.runCount + 1 && r.lastRun == Some(now)
    ensures r.(runCount := j.runCount, lastRun := j.lastRun) == j
  {
    j.(lastRun := Some(now), runCount := j.runCount + 1)
  }

  // ---------------------------------------------------------------------
  // The convenience jobs

  const MonitorJobId: string := "nintendo_monitor"
  const MonitorCronJobId: string := "nintendo_monitor_cron"
  const DefaultIntervalMinutes: int := 15
  const DefaultCron: string := "*/15 * * * *"

  function MonitorJob(intervalMinutes: int): JobConfig {
    NewJob(MonitorJobId, "Nintendo Switch 2 Monitor",
           "Monitor Gmail for Nintendo Switch 2 emails and send alerts",
           MonitorEndpoint, "interval", IntToString(intervalMinutes))
  }

  function MonitorCronJob(cronExpression: string): JobConfig {
    NewJob(MonitorCronJobId, "Nintendo Switch 2 Monitor (Cron)",
           "Monitor Gmail for Nintendo Switch 2 emails using cron schedule",
           MonitorEndpoint, "cron", cronExpression)
  }

  /** The interval job's schedule parses back to its own interval whenever
      `str` can write it, so only the scheduler's own validation can refuse
      it. */
  lemma MonitorJobParses(intervalMinutes: int)
    ensures ParseTrigger(MonitorJob(intervalMinutes).scheduleType, MonitorJob(intervalMinutes).scheduleValue)
         == if StrConvertible(intervalMinutes) then Some(Interval(intervalMinutes)) else None
  {
    IntToStringRoundTrip(intervalMinutes);
  }

  /** The default cron expression has its five fields. */
  lemma DefaultCronParses()
    ensures ParseTrigger("cron", DefaultCron) == Some(Cron("*/15", "*", "*", "*", "*"))
  {
    var fields := DefaultCronFields();
    WordsOfJoin(fields);
  }

  /** The default cron expression is its five fields joined by spaces. */
  lemma DefaultCronFields() returns (fields: seq<string>)
    ensures fields == ["*/15", "*", "*", "*", "*"] && Join(fields, " ") == DefaultCron
    ensures forall i :: 0 <= i < |fields| ==> IsWord(fields[i])
  {
    fields := ["*/15", "*", "*", "*", "*"];
    assert IsWord(fields[0]);
  }

  // ---------------------------------------------------------------------
  // The service

  class SchedulerService {
    var jobs: map<string, JobConfig>
    var isRunning: bool
    const hasMonitor: bool
    /** Whether the scheduling library's n-th removal, pause or resume call
        raises (for instance a job it no longer holds after a shutdown). */
    const raises: nat -> bool
    /** How many such calls have been made. */
    var calls: nat

    /** Every job is filed under its own id. */
    ghost predicate Valid()
      reads this
    {
      forall k :: k in jobs ==> jobs[k].id == k
    }

    constructor (hasMonitor: bool, raises: nat -> bool)
      ensures Valid() && jobs == map[] && !isRunning && calls == 0
      ensures this.hasMonitor == hasMonitor && this.raises == raises
    {
      jobs := map[];
      isRunning := false;
      this.hasMonitor := hasMonitor;
      this.raises := raises;
      calls := 0;
    }

    method StartScheduler()
      modifies this`isRunning
      ensures isRunning
    {
      if !isRunning {
        isRunning := true;
      }
    }

    method StopScheduler()
      modifies this`isRunning
      ensures !isRunning
    {
      if isRunning {
        isRunning := false;
      }
    }

    /** add_job: any job under the same id is removed first (a removal that
        raises keeps it); the new one is filed only when its schedule parses
        and the scheduler accepts it. */
    method AddJob(config: JobConfig, accepts: Acceptance) returns (ok: bool)
      requires Valid()
      modifies this`jobs, this`calls
      ensures Valid()
      ensures var t := ParseTrigger(config.scheduleType, config.scheduleValue);
        ok == (t.Some? && accepts(t.value))
      ensures calls == old(calls) + (if config.id in old(jobs) then 1 else 0)
      ensures jobs == if ok then old(jobs)[config.id := config]
                      else if raises(old(calls)) then old(jobs)
                      else old(jobs) - {config.id}
    {
      if config.id in jobs {
        var _ := RemoveJob(config.id);
      }
      var trigger := ParseTrigger(config.scheduleType, config.scheduleValue);
      if trigger.None? || !accepts(trigger.value) {
        return false;
      }
      jobs := jobs[config.id := config];
      assert jobs == old(jobs)[config.id := config];
      ok := true;
    }

    /** remove_job: False, and nothing changes, for an unknown id or when the
        scheduler's removal raises. */
    method RemoveJob(id: string) returns (ok: bool)
      requires Valid()
      modifies this`jobs, this`calls
      ensures Valid()
      ensures calls == old(calls) + (if id in old(jobs) then 1 else 0)
      ensures ok == (id in old(jobs) && !raises(old(calls)))
      ensures jobs == if ok then old(jobs) - {id} else old(jobs)
    {
      if id in jobs {
        var raised := raises(calls);
        calls := calls + 1;
        if raised {
          return false;
        }
        jobs := jobs - {id};
        return true;
      }
      ok := false;
    }

    /** pause_job: switches the job off; False, and nothing changes, for an
        unknown id or when the scheduler's pause raises. */
    method PauseJob(id: string) returns (ok: bool)
      requires Valid()
      modifies this`jobs, this`calls
      ensures Valid()
      ensures calls == old(calls) + (if id in old(jobs) then 1 else 0)
      ensures ok == (id in old(jobs) && !raises(old(calls)))
      ensures jobs == if ok then SetEnabled(old(jobs), id, false) else old(jobs)
    {
      if id in jobs {
        var raised := raises(calls);
        calls := calls + 1;
        if raised {
          return false;
        }
        jobs := jobs[id := jobs[id].(enabled := false)];
        return true;
      }
      ok := false;
    }

    /** resume_job: switches the job on; False, and nothing changes, for an
        unknown id or when the scheduler's resume raises. */
    method ResumeJob(id: string) returns (ok: bool)
      requires Valid()
      modifies this`jobs, this`calls
      ensures Valid()
      ensures calls == old(calls) + (if id in old(jobs) then 1 else 0)
      ensures ok == (id in old(jobs) && !raises(old(calls)))
      ensures jobs == if ok then SetEnabled(old(jobs), id, true) else old(jobs)
    {
      if id in jobs {
        var raised := raises(calls);
        calls := calls + 1;
        if raised {
          return false;
        }
        jobs := jobs[id := jobs[id].(enabled := true)];
        return true;
      }
      ok := false;
    }

    /** get_scheduler_status. */
    function GetSchedulerStatus(): (s: SchedulerStatus)
      reads this
      ensures s.activeJobs + s.pausedJobs == s.totalJobs == |jobs|
      ensures s.running == isRunning
    {
      StatusOf(isRunning, jobs)
    }

    /** _execute_job: for a known id, stamp the run and count it, then
        dispatch on the endpoint; an unknown id changes nothing. */
    method ExecuteJob(id: string, now: string) returns (action: JobAction)
      requires Valid()
      modifies this`jobs
      ensures Valid()
      ensures id !in old(jobs) ==> action == NotFound && jobs == old(jobs)
      ensures id in old(jobs) ==>
        && jobs == old(jobs)[id := Bumped(old(jobs)[id], now)]
        && action == ActionFor(old(jobs)[id].endpoint, hasMonitor)
    {
      if id !in jobs {
        return NotFound;
      }
      var config := jobs[id];
      jobs := jobs[id := config.(lastRun := Some(now), runCount := config.runCount + 1)];
      if config.endpoint == MonitorEndpoint {
        if hasMonitor {
          action := RunMonitor;
        } else {
          action := MonitorMissing;
        }
      } else {
        action := UnknownEndpoint;
      }
    }

    /** add_nintendo_monitor_job: `str(interval_minutes)` raises (None) for
        an interval past the digit limit, before anything changes; otherwise
        the job is added exactly when the scheduler accepts the interval. */
    method AddNintendoMonitorJob(accepts: Acceptance, intervalMinutes: int := DefaultIntervalMinutes)
      returns (ok: Option<bool>)
      requires Valid()
      modifies this`jobs, this`calls
      ensures Valid()
      ensures ok.None? <==> !StrConvertible(intervalMinutes)
      ensures ok.None? ==> jobs == old(jobs) && calls == old(calls)
      ensures ok.Some? ==> ok.value == accepts(Interval(intervalMinutes))
      ensures ok.Some? ==> calls == old(calls) + (if MonitorJobId in old(jobs) then 1 else 0)
      ensures ok.Some? ==>
        jobs == if ok.value then old(jobs)[MonitorJobId := MonitorJob(intervalMinutes)]
                else if raises(old(calls)) then old(jobs)
                else old(jobs) - {MonitorJobId}
    {
      if !StrConvertible(intervalMinutes) {
        return None;
      }
      MonitorJobParses(intervalMinutes);
      var added := AddJob(MonitorJob(intervalMinutes), accepts);
      ok := Some(added);
    }

    /** add_nintendo_monitor_cron. */
    method AddNintendoMonitorCron(accepts: Acceptance, cronExpression: string := DefaultCron)
      returns (ok: bool)
      requires Valid()
      modifies this`jobs, this`calls
      ensures Valid()
      ensures var t := ParseTrigger("cron", cronExpression);
        ok == (t.Some? && accepts(t.value))
      ensures calls == old(calls) + (if MonitorCronJobId in old(jobs) then 1 else 0)
      ensures jobs == if ok then old(jobs)[MonitorCronJobId := MonitorCronJob(cronExpression)]
                      else if raises(old(calls)) then old(jobs)
                      else old(jobs) - {MonitorCronJobId}
    {
      ok := AddJob(MonitorCronJob(cronExpression), accepts);
    }
  }
}
