/**
 * The project monitor: on start, for each configured project, runs one health
 * check and one metrics collection at once and schedules both to repeat; it
 * caches the latest health snapshot of each project, writes every snapshot
 * and reading to the database, and notes status changes.
 *
 * The outside world enters as parameters: a probe outcome per HTTP call, a
 * write outcome per insert, and the current time. A timer is an entry in
 * `timers` (its id is its index); a timer firing is an explicit `Tick`, and a
 * check it starts is recorded in `issued` and completed by a later call of
 * `CheckProjectHealth` or `CollectMetrics`.
 */
module ProjectMonitor {
  import opened Wrappers
  import opened Types
  import opened Database

  /** A repeating piece of work: one project's health check, or its metrics collection. */
  datatype Job = HealthJob(project: Project) | MetricsJob(project: Project)

  /**
   * How the health request ended: a 2xx reply whose body holds an optional
   * status and uptime; a non-2xx reply; or an exception (timeout, network,
   * unreadable body).
   */
  datatype HealthProbe =
    | HealthOk(elapsed: int, status: Option<string>, uptime: Option<real>)
    | HealthHttpError(code: int, elapsed: int)
    | HealthFailed(message: string)

  /** The numeric fields of a metrics body; None when the field is absent. */
  datatype MetricsBody = MetricsBody(
    requestsPerSecond: Option<real>,
    errorRate: Option<real>,
    errorCount: Option<real>,
    apiUsage: Option<map<string, real>>,
    memoryUsagePercent: Option<real>,
    cpuUsagePercent: Option<real>,
    databaseQueryTime: Option<real>)

  /** How the metrics request ended. */
  datatype MetricsProbe = MetricsOk(body: MetricsBody) | MetricsHttpError(code: int) | MetricsFailed(message: string)

  /** Why a project was found down: an HTTP status, or an error's message. */
  datatype DownReason = HttpStatus(code: int) | ErrorMessage(message: string)

  /** The status-change lines the monitor writes. */
  datatype Notice =
    | StatusChanged(projectName: string, from: Option<string>, to: string)
    | WentDown(projectName: string, reason: DownReason)

  /** The response time recorded when the request threw. */
  const FAILED_RESPONSE_TIME := 5000

  /** The checks `start` runs at once, and the timers it creates, in order: health then metrics, per project. */
  function Jobs(ps: seq<Project>): seq<Job> {
    if ps == [] then []
    else Jobs(ps[..|ps| - 1]) + [HealthJob(ps[|ps| - 1]), MetricsJob(ps[|ps| - 1])]
  }

  /** Extending a prefix of `ps` by one project adds its two jobs and its two registry entries. */
  lemma PrefixStep(ps: seq<Project>, i: nat, base: nat)
    requires i < |ps|
    ensures Jobs(ps[..i + 1]) == Jobs(ps[..i]) + [HealthJob(ps[i]), MetricsJob(ps[i])]
    ensures Registry(ps[..i + 1], base, 0) == Registry(ps[..i], base, 0)[ps[i].name := base + 2 * i]
    ensures Registry(ps[..i + 1], base, 1) == Registry(ps[..i], base, 1)[ps[i].name := base + 2 * i + 1]
  {
    assert ps[..i + 1][..i] == ps[..i];
  }

  /** The k-th project contributes positions 2k (health) and 2k+1 (metrics). */
  lemma {:induction false} JobsAt(ps: seq<Project>)
    ensures |Jobs(ps)| == 2 * |ps|
    ensures forall k :: 0 <= k < |ps| ==> Jobs(ps)[2 * k] == HealthJob(ps[k]) && Jobs(ps)[2 * k + 1] == MetricsJob(ps[k])
  {
    if ps != [] {
      var init := ps[..|ps| - 1];
      JobsAt(init);
      forall k | 0 <= k < |ps| - 1
        ensures Jobs(ps)[2 * k] == HealthJob(ps[k]) && Jobs(ps)[2 * k + 1] == MetricsJob(ps[k])
      {
        assert init[k] == ps[k];
      }
    }
  }

  function ProjectNames(ps: seq<Project>): set<string> {
    set p | p in ps :: p.name
  }

  /** No later project has the name of `ps[i]`. */
  predicate LastOfItsName(ps: seq<Project>, i: int)
    requires 0 <= i < |ps|
  {
    forall k :: i < k < |ps| ==> ps[k].name != ps[i].name
  }

  /** The cached status of a project, if any. */
  function PreviousStatus(lastStatus: map<string, ProjectHealth>, name: string): Option<string> {
    if name in lastStatus then Some(lastStatus[name].status) else None
  }

  /** The snapshot of a 2xx health reply: a missing or empty status reads as degraded, a missing or zero uptime as 100. */
  function Reported(project: Project, elapsed: int, status: Option<string>, uptime: Option<real>, now: int): ProjectHealth {
    ProjectHealth(
      project.name,
      if Truthy(status) then status.value else "degraded",
      now,
      if uptime.Some? && uptime.value != 0.0 then uptime.value else 100.0,
      elapsed,
      true)
  }

  /** The snapshot of a project that failed its check. */
  function DownHealth(project: Project, responseTime: int, now: int): ProjectHealth {
    ProjectHealth(project.name, "down", now, 0.0, responseTime, false)
  }

  /**
   * A 2xx reply is always a running project: its status is never empty and
   * is the reported one when present, else degraded; its uptime is never 0
   * and is the reported one unless missing or 0, when it is 100.
   */
  lemma ReportedDefaults(project: Project, elapsed: int, status: Option<string>, uptime: Option<real>, now: int)
    ensures var h := Reported(project, elapsed, status, uptime, now);
            && h.projectName == project.name && h.isRunning && h.responseTime == elapsed && h.lastCheck == now
            && h.status != ""
            && (Truthy(status) ==> h.status == status.value)
            && (!Truthy(status) ==> h.status == "degraded")
            && h.uptime != 0.0
            && (uptime.Some? && uptime.value != 0.0 ==> h.uptime == uptime.value)
            && (uptime.None? || uptime.value == 0.0 ==> h.uptime == 100.0)
  {
  }

  /**
   * A 2xx reply that itself says "down" is cached as a running project with
   * the reported uptime (100 when missing): only a failed request yields
   * uptime 0 and a stopped process.
   */
  lemma ReportedDownKeepsUptime(project: Project, elapsed: int, uptime: real, now: int)
    requires uptime != 0.0
    ensures var h := Reported(project, elapsed, Some("down"), Some(uptime), now);
            h.status == "down" && h.uptime == uptime && h.isRunning
  {
  }

  /** The reading of a 2xx metrics reply: every missing number is 0, a missing API usage is empty. */
  function MetricsFrom(project: Project, body: MetricsBody, now: int): (m: ProjectMetrics)
    ensures m.projectName == project.name && m.timestamp == now
    ensures body.cpuUsagePercent.None? ==> m.cpuUsagePercent == 0.0
    ensures body.cpuUsagePercent.Some? ==> m.cpuUsagePercent == body.cpuUsagePercent.value
    ensures body.memoryUsagePercent.None? ==> m.memoryUsagePercent == 0.0
    ensures body.memoryUsagePercent.Some? ==> m.memoryUsagePercent == body.memoryUsagePercent.value
    ensures body.errorRate.None? ==> m.errorRate == 0.0
    ensures body.errorRate.Some? ==> m.errorRate == body.errorRate.value
    ensures body.requestsPerSecond.None? ==> m.requestsPerSecond == 0.0
    ensures body.requestsPerSecond.Some? ==> m.requestsPerSecond == body.requestsPerSecond.value
    ensures body.errorCount.None? ==> m.errorCount == 0.0
    ensures body.errorCount.Some? ==> m.errorCount == body.errorCount.value
    ensures body.databaseQueryTime.None? ==> m.databaseQueryTime == 0.0
    ensures body.databaseQueryTime.Some? ==> m.databaseQueryTime == body.databaseQueryTime.value
    ensures body.apiUsage.None? ==> m.apiUsage == map[]
    ensures body.apiUsage.Some? ==> m.apiUsage == body.apiUsage.value
  {
    ProjectMetrics(
      project.name,
      body.requestsPerSecond.GetOr(0.0),
      body.errorRate.GetOr(0.0),
      body.errorCount.GetOr(0.0),
      body.apiUsage.GetOr(map[]),
      body.memoryUsagePercent.GetOr(0.0),
      body.cpuUsagePercent.GetOr(0.0),
      body.databaseQueryTime.GetOr(0.0),
      now)
  }

  /**
   * Each cached snapshot is filed under its own project's name, and a
   * snapshot of a stopped process says down with uptime 0.
   */
  ghost predicate CacheConsistent(cache: map<string, ProjectHealth>) {
    && (forall n :: n in cache ==> cache[n].projectName == n)
    && (forall n :: n in cache && !cache[n].isRunning ==> cache[n].status == "down" && cache[n].uptime == 0.0)
  }

  /** Every registered timer id, of either kind, names an existing timer. */
  lemma RegisteredExist(timers: seq<Job>, cleared: set<nat>, health: map<string, nat>, metrics: map<string, nat>)
    requires RegistriesConsistent(timers, cleared, health, metrics)
    ensures forall id :: id in cleared + health.Values + metrics.Values ==> id < |timers|
  {
  }

  /** A second write to the same key hides the first. */
  lemma Overwrite<K, V>(m: map<K, V>, k: K, v: V, w: V)
    ensures m[k := v][k := w] == m[k := w]
  {
  }

  /** Filing a snapshot under its own name keeps the cache consistent. */
  lemma CacheUpdate(cache: map<string, ProjectHealth>, h: ProjectHealth)
    requires CacheConsistent(cache)
    requires !h.isRunning ==> h.status == "down" && h.uptime == 0.0
    ensures CacheConsistent(cache[h.projectName := h])
  {
  }

  /** Every registered timer exists, is not cleared, and runs the registered project's job of that kind. */
  ghost predicate RegistriesConsistent(timers: seq<Job>, cleared: set<nat>, health: map<string, nat>, metrics: map<string, nat>) {
    && (forall id :: id in cleared ==> id < |timers|)
    && (forall n :: n in health ==>
          health[n] < |timers| && health[n] !in cleared
          && timers[health[n]].HealthJob? && timers[health[n]].project.name == n)
    && (forall n :: n in metrics ==>
          metrics[n] < |timers| && metrics[n] !in cleared
          && timers[metrics[n]].MetricsJob? && timers[metrics[n]].project.name == n)
  }

  /**
   * The registry `start` leaves behind, built entry by entry: the timer id
   * of each project, in order, overwrites its name's entry. Health timers
   * have offset 0, metrics timers offset 1.
   */
  function Registry(ps: seq<Project>, base: nat, offset: nat): map<string, nat> {
    if ps == [] then map[]
    else Registry(ps[..|ps| - 1], base, offset)[ps[|ps| - 1].name := base + 2 * (|ps| - 1) + offset]
  }

  /** The registry has exactly one entry per project name. */
  lemma {:induction false} RegistryKeys(ps: seq<Project>, base: nat, offset: nat)
    ensures Registry(ps, base, offset).Keys == ProjectNames(ps)
  {
    if ps != [] {
      var init := ps[..|ps| - 1];
      RegistryKeys(init, base, offset);
      assert ps == init + [ps[|ps| - 1]];
      assert ProjectNames(ps) == ProjectNames(init) + {ps[|ps| - 1].name};
    }
  }

  /** A project stays the last of its name when a project of another name follows it. */
  lemma LastOfItsNameExtends(ps: seq<Project>, i: nat)
    requires i < |ps| - 1 && LastOfItsName(ps[..|ps| - 1], i) && ps[i].name != ps[|ps| - 1].name
    ensures LastOfItsName(ps, i)
  {
    forall k | i < k < |ps| ensures ps[k].name != ps[i].name {
      if k < |ps| - 1 {
        assert ps[k] == ps[..|ps| - 1][k];
      }
    }
  }

  /** Each registry entry is the timer of the last project with that name. */
  lemma {:induction false} RegistryEntries(ps: seq<Project>, base: nat, offset: nat)
    ensures forall n :: n in Registry(ps, base, offset) ==>
              exists i :: 0 <= i < |ps| && LastOfItsName(ps, i) && ps[i].name == n
                          && Registry(ps, base, offset)[n] == base + 2 * i + offset
  {
    if ps != [] {
      var init := ps[..|ps| - 1];
      var last := |ps| - 1;
      var r := Registry(ps, base, offset);
      RegistryEntries(init, base, offset);
      forall n | n in r
        ensures exists i :: 0 <= i < |ps| && LastOfItsName(ps, i) && ps[i].name == n && r[n] == base + 2 * i + offset
      {
        if n == ps[last].name {
          assert LastOfItsName(ps, last);
        } else {
          var i :| 0 <= i < |init| && LastOfItsName(init, i) && init[i].name == n
                   && Registry(init, base, offset)[n] == base + 2 * i + offset;
          LastOfItsNameExtends(ps, i);
        }
      }
    }
  }

  /** The last project of each name has its timer registered under that name. */
  lemma RegistryLast(ps: seq<Project>, base: nat, offset: nat)
    ensures forall i :: 0 <= i < |ps| && LastOfItsName(ps, i) ==>
              ps[i].name in Registry(ps, base, offset) && Registry(ps, base, offset)[ps[i].name] == base + 2 * i + offset
  {
    RegistryKeys(ps, base, offset);
    RegistryEntries(ps, base, offset);
    var r := Registry(ps, base, offset);
    forall i | 0 <= i < |ps| && LastOfItsName(ps, i)
      ensures ps[i].name in r && r[ps[i].name] == base + 2 * i + offset
    {
      assert ps[i] in ps;
      var j :| 0 <= j < |ps| && LastOfItsName(ps, j) && ps[j].name == ps[i].name && r[ps[i].name] == base + 2 * j + offset;
    }
  }

  /** A project followed by another of the same name has its timer in no registry entry. */
  lemma RegistrySkipsShadowed(ps: seq<Project>, base: nat, offset: nat)
    ensures forall i :: 0 <= i < |ps| && !LastOfItsName(ps, i) ==> base + 2 * i + offset !in Registry(ps, base, offset).Values
  {
    RegistryEntries(ps, base, offset);
    var r := Registry(ps, base, offset);
    forall i | 0 <= i < |ps| && !LastOfItsName(ps, i)
      ensures base + 2 * i + offset !in r.Values
    {
      forall n | n in r
        ensures r[n] != base + 2 * i + offset
      {
        var j :| 0 <= j < |ps| && LastOfItsName(ps, j) && ps[j].name == n && r[n] == base + 2 * j + offset;
      }
    }
  }

  /** Each registry entry is the id of a timer `start` created for that name, of the registry's kind. */
  lemma RegistryJobs(timers: seq<Job>, ps: seq<Project>, offset: nat)
    requires offset <= 1
    ensures forall n :: n in Registry(ps, |timers|, offset) ==>
              var id := Registry(ps, |timers|, offset)[n];
              |timers| <= id < |timers + Jobs(ps)| && (timers + Jobs(ps))[id].project.name == n
              && ((timers + Jobs(ps))[id].HealthJob? <==> offset == 0)
  {
    RegistryEntries(ps, |timers|, offset);
    JobsAt(ps);
    var r := Registry(ps, |timers|, offset);
    forall n | n in r
      ensures |timers| <= r[n] < |timers + Jobs(ps)| && (timers + Jobs(ps))[r[n]].project.name == n
              && ((timers + Jobs(ps))[r[n]].HealthJob? <==> offset == 0)
    {
      var i :| 0 <= i < |ps| && LastOfItsName(ps, i) && ps[i].name == n && r[n] == |timers| + 2 * i + offset;
      assert (timers + Jobs(ps))[r[n]] == Jobs(ps)[2 * i + offset];
    }
  }

  /** What `start` leaves in the registries, stated on values. */
  lemma StartedRegistries(timers: seq<Job>, cleared: set<nat>, ps: seq<Project>)
    requires forall id :: id in cleared ==> id < |timers|
    ensures var health, metrics := Registry(ps, |timers|, 0), Registry(ps, |timers|, 1);
            && RegistriesConsistent(timers + Jobs(ps), cleared, health, metrics)
            && health.Keys == ProjectNames(ps) && metrics.Keys == ProjectNames(ps)
  {
    RegistryKeys(ps, |timers|, 0);
    RegistryKeys(ps, |timers|, 1);
    RegistryJobs(timers, ps, 0);
    RegistryJobs(timers, ps, 1);
  }

  /** The ids of the first `n` timers. */
  function AllTimers(n: nat): (ids: set<nat>)
    ensures forall id: nat :: id in ids <==> id < n
  {
    if n == 0 then {} else AllTimers(n - 1) + {n - 1}
  }

  class ProjectMonitor {
    const projects: seq<Project>
    const db: Database
    var lastStatus: map<string, ProjectHealth>
    var healthTimers: map<string, nat>
    var metricsTimers: map<string, nat>
    var running: bool
    /** Every timer created so far; a timer's id is its index. */
    var timers: seq<Job>
    /** Ids of the timers cleared. */
    var cleared: set<nat>
    /** Checks started, at once by `start` or by a timer, in order. */
    var issued: seq<Job>
    var notices: seq<Notice>

    /** The registries point at live timers of the right kind and project. */
    ghost predicate RegistriesValid()
      reads this`timers, this`cleared, this`healthTimers, this`metricsTimers
    {
      RegistriesConsistent(timers, cleared, healthTimers, metricsTimers)
    }

    ghost predicate Valid()
      reads this
    {
      && RegistriesValid()
      && CacheConsistent(lastStatus)
      && (!running ==> healthTimers == map[] && metricsTimers == map[])
      && (running ==> healthTimers.Keys == ProjectNames(projects) && metricsTimers.Keys == ProjectNames(projects))
    }

    /** Timers created and not cleared: they keep firing. */
    function Active(): set<nat>
      reads this
    {
      set id | 0 <= id < |timers| && id !in cleared
    }

    constructor (projects: seq<Project>, db: Database)
      ensures Valid()
      ensures this.projects == projects && this.db == db && !running
      ensures lastStatus == map[] && timers == [] && cleared == {} && issued == [] && notices == []
    {
      this.projects, this.db := projects, db;
      lastStatus, healthTimers, metricsTimers := map[], map[], map[];
      running := false;
      timers, cleared, issued, notices := [], {}, [], [];
    }

    /**
     * On a running monitor: nothing. Otherwise sets running, initializes the
     * database, and for each project in order runs a health check and a
     * metrics collection at once and creates a repeating timer for each. A
     * name's registry entry holds the timer of its last project, so the
     * timers of an earlier project with the same name are registered nowhere.
     */
    method Start(initOutcome: ConnectOutcome)
      requires Valid()
      modifies this, db`initialized
      ensures Valid()
      ensures old(running) ==> unchanged(this) && unchanged(db)
      ensures !old(running) ==>
                && running
                && timers == old(timers) + Jobs(projects)
                && issued == old(issued) + Jobs(projects)
                && (db.initialized <==> old(db.initialized) || initOutcome.Reachable?
                                        || (initOutcome.ConnectError? && initOutcome.error.code == TABLE_MISSING))
                && healthTimers == Registry(projects, |old(timers)|, 0)
                && metricsTimers == Registry(projects, |old(timers)|, 1)
                && lastStatus == old(lastStatus) && cleared == old(cleared) && notices == old(notices)
    {
      if running {
        return;
      }
      running := true;
      db.Initialize(initOutcome);
      StartAll();
      StartedRegistries(old(timers), cleared, projects);
    }

    /** The loop of `start`: health then metrics, project by project. */
    method StartAll()
      requires healthTimers == map[] && metricsTimers == map[]
      modifies this`issued, this`timers, this`healthTimers, this`metricsTimers
      ensures timers == old(timers) + Jobs(projects) && issued == old(issued) + Jobs(projects)
      ensures healthTimers == Registry(projects, |old(timers)|, 0) && metricsTimers == Registry(projects, |old(timers)|, 1)
    {
      ghost var timers0, issued0 := timers, issued;
      var ps := projects;
      for i := 0 to |ps|
        invariant |timers| == |timers0| + 2 * i
        invariant timers == timers0 + Jobs(ps[..i]) && issued == issued0 + Jobs(ps[..i])
        invariant healthTimers == Registry(ps[..i], |timers0|, 0) && metricsTimers == Registry(ps[..i], |timers0|, 1)
      {
        PrefixStep(ps, i, |timers0|);
        StartProject(ps[i]);
      }
      assert ps[..|ps|] == ps;
    }

    /** One iteration of `start`'s loop: the health check, then the metrics collection. */
    method StartProject(project: Project)
      modifies this`issued, this`timers, this`healthTimers, this`metricsTimers
      ensures issued == old(issued) + [HealthJob(project), MetricsJob(project)]
      ensures timers == old(timers) + [HealthJob(project), MetricsJob(project)]
      ensures healthTimers == old(healthTimers)[project.name := |old(timers)|]
      ensures metricsTimers == old(metricsTimers)[project.name := |old(timers)| + 1]
    {
      StartHealthCheck(project);
      StartMetricsCheck(project);
    }

    /** `startHealthCheck`: starts a check at once, then creates and registers the repeating timer. */
    method StartHealthCheck(project: Project)
      modifies this`issued, this`timers, this`healthTimers
      ensures issued == old(issued) + [HealthJob(project)]
      ensures timers == old(timers) + [HealthJob(project)]
      ensures healthTimers == old(healthTimers)[project.name := |old(timers)|]
    {
      issued := issued + [HealthJob(project)];
      timers := timers + [HealthJob(project)];
      healthTimers := healthTimers[project.name := |timers| - 1];
    }

    /** `startMetricsCheck`: as `startHealthCheck`, for metrics. */
    method StartMetricsCheck(project: Project)
      modifies this`issued, this`timers, this`metricsTimers
      ensures issued == old(issued) + [MetricsJob(project)]
      ensures timers == old(timers) + [MetricsJob(project)]
      ensures metricsTimers == old(metricsTimers)[project.name := |old(timers)|]
    {
      issued := issued + [MetricsJob(project)];
      timers := timers + [MetricsJob(project)];
      metricsTimers := metricsTimers[project.name := |timers| - 1];
    }

    /**
     * On a stopped monitor: nothing. Otherwise clears running and every
     * registered timer, and empties both registries; the cached statuses stay.
     */
    method Stop()
      requires Valid()
      modifies this
      ensures Valid()
      ensures !old(running) ==> unchanged(this)
      ensures old(running) ==>
                && !running && healthTimers == map[] && metricsTimers == map[]
                && cleared == old(cleared) + old(healthTimers.Values) + old(metricsTimers.Values)
                && Active() == old(Active()) - old(healthTimers.Values) - old(metricsTimers.Values)
                && timers == old(timers) && issued == old(issued)
                && lastStatus == old(lastStatus) && notices == old(notices)
    {
      if !running {
        return;
      }
      running := false;
      RegisteredExist(timers, cleared, healthTimers, metricsTimers);
      cleared := cleared + healthTimers.Values + metricsTimers.Values;
      healthTimers, metricsTimers := map[], map[];
    }

    /**
     * `stop` as evidently intended: clears every timer the monitor created,
     * not only the registered ones, so no timer stays live, whatever the
     * project names.
     */
    method StopClearingAll()
      requires Valid()
      modifies this
      ensures Valid()
      ensures !old(running) ==> unchanged(this)
      ensures old(running) ==>
                && !running && healthTimers == map[] && metricsTimers == map[]
                && cleared == old(cleared) + AllTimers(|timers|)
                && Active() == {}
                && timers == old(timers) && issued == old(issued)
                && lastStatus == old(lastStatus) && notices == old(notices)
    {
      if !running {
        return;
      }
      running := false;
      cleared := cleared + AllTimers(|timers|);
      healthTimers, metricsTimers := map[], map[];
    }

    /** A live timer fires: it starts its check again. */
    method Tick(id: nat)
      requires Valid() && id in Active()
      modifies this`issued
      ensures Valid()
      ensures issued == old(issued) + [timers[id]]
    {
      issued := issued + [timers[id]];
    }

    /** The monitor, apart from its cache, its notices and the status table, is as it was. */
    twostate predicate OnlyHealthChanged()
      reads this
    {
      && healthTimers == old(healthTimers) && metricsTimers == old(metricsTimers)
      && running == old(running) && timers == old(timers) && cleared == old(cleared) && issued == old(issued)
    }

    /**
     * `handleUnhealthyProject`: caches a down snapshot, writes it without
     * waiting or catching (a rejection of that write is not modelled), and
     * notes the outage unless the cached status was already down.
     */
    method HandleUnhealthyProject(project: Project, reason: DownReason, responseTime: int, write: WriteOutcome, now: int)
      requires Valid()
      modifies this`lastStatus, this`notices, db`statusTable
      ensures Valid() && OnlyHealthChanged()
      ensures lastStatus == old(lastStatus)[project.name := DownHealth(project, responseTime, now)]
      ensures db.statusTable == old(db.statusTable) + (if write.Written? then [StatusRowOf(project.name, DownHealth(project, responseTime, now), now)] else [])
      ensures notices == old(notices) + (if PreviousStatus(old(lastStatus), project.name) != Some("down") then [WentDown(project.name, reason)] else [])
    {
      var health := DownHealth(project, responseTime, now);
      var previous := PreviousStatus(lastStatus, project.name);
      CacheUpdate(lastStatus, health);
      lastStatus := lastStatus[project.name := health];
      var _ := db.RecordStatusHistory(project.name, health, now, write);
      if previous != Some("down") {
        notices := notices + [WentDown(project.name, reason)];
      }
    }

    /**
     * `checkProjectHealth`, completed with the request's outcome. A 2xx reply
     * caches the reported snapshot (only this project's entry changes), then
     * writes it, and notes a change from the cached status; a non-2xx reply
     * or an exception goes to `HandleUnhealthyProject`. A rejected write of a
     * 2xx snapshot is caught like a failed request: the project is cached as
     * down, with the failure response time.
     */
    method CheckProjectHealth(project: Project, probe: HealthProbe, write: WriteOutcome, fallbackWrite: WriteOutcome, now: int)
      requires Valid()
      modifies this`lastStatus, this`notices, db`statusTable
      ensures Valid() && OnlyHealthChanged()
      ensures probe.HealthOk? && !write.WriteRejected? ==>
                var h := Reported(project, probe.elapsed, probe.status, probe.uptime, now);
                && lastStatus == old(lastStatus)[project.name := h]
                && db.statusTable == old(db.statusTable) + (if write.Written? then [StatusRowOf(project.name, h, now)] else [])
                && notices == old(notices) + (if PreviousStatus(old(lastStatus), project.name) != Some(h.status)
                                              then [StatusChanged(project.name, PreviousStatus(old(lastStatus), project.name), h.status)]
                                              else [])
      ensures probe.HealthOk? && write.WriteRejected? ==>
                var h := Reported(project, probe.elapsed, probe.status, probe.uptime, now);
                var d := DownHealth(project, FAILED_RESPONSE_TIME, now);
                && lastStatus == old(lastStatus)[project.name := d]
                && db.statusTable == old(db.statusTable) + (if fallbackWrite.Written? then [StatusRowOf(project.name, d, now)] else [])
                && notices == old(notices) + (if h.status != "down" then [WentDown(project.name, ErrorMessage(write.message))] else [])
      ensures !probe.HealthOk? ==>
                var d := DownHealth(project, if probe.HealthHttpError? then probe.elapsed else FAILED_RESPONSE_TIME, now);
                && lastStatus == old(lastStatus)[project.name := d]
                && db.statusTable == old(db.statusTable) + (if fallbackWrite.Written? then [StatusRowOf(project.name, d, now)] else [])
                && notices == old(notices) + (if PreviousStatus(old(lastStatus), project.name) != Some("down")
                                              then [WentDown(project.name, if probe.HealthHttpError? then HttpStatus(probe.code) else ErrorMessage(probe.message))]
                                              else [])
    {
      match probe
      case HealthHttpError(code, elapsed) =>
        HandleUnhealthyProject(project, HttpStatus(code), elapsed, fallbackWrite, now);
      case HealthFailed(message) =>
        HandleUnhealthyProject(project, ErrorMessage(message), FAILED_RESPONSE_TIME, fallbackWrite, now);
      case HealthOk(elapsed, status, uptime) =>
        RecordReported(project, Reported(project, elapsed, status, uptime, now), write, fallbackWrite, now);
    }

    /**
     * The 2xx path of `checkProjectHealth`: caches the reported snapshot,
     * records it, and notes a status change; a rejected write is caught like
     * a failed request, after the cache was already updated.
     */
    method RecordReported(project: Project, h: ProjectHealth, write: WriteOutcome, fallbackWrite: WriteOutcome, now: int)
      requires Valid() && h.projectName == project.name && h.isRunning
      modifies this`lastStatus, this`notices, db`statusTable
      ensures Valid() && OnlyHealthChanged()
      ensures !write.WriteRejected? ==>
                && lastStatus == old(lastStatus)[project.name := h]
                && db.statusTable == old(db.statusTable) + (if write.Written? then [StatusRowOf(project.name, h, now)] else [])
                && notices == old(notices) + (if PreviousStatus(old(lastStatus), project.name) != Some(h.status)
                                              then [StatusChanged(project.name, PreviousStatus(old(lastStatus), project.name), h.status)]
                                              else [])
      ensures write.WriteRejected? ==>
                var d := DownHealth(project, FAILED_RESPONSE_TIME, now);
                && lastStatus == old(lastStatus)[project.name := d]
                && db.statusTable == old(db.statusTable) + (if fallbackWrite.Written? then [StatusRowOf(project.name, d, now)] else [])
                && notices == old(notices) + (if h.status != "down" then [WentDown(project.name, ErrorMessage(write.message))] else [])
    {
      var previous := PreviousStatus(lastStatus, project.name);
      CacheUpdate(lastStatus, h);
      lastStatus := lastStatus[project.name := h];
      var rejected := db.RecordStatusHistory(project.name, h, now, write);
      if rejected.Some? {
        ghost var cached := lastStatus;
        HandleUnhealthyProject(project, ErrorMessage(rejected.value), FAILED_RESPONSE_TIME, fallbackWrite, now);
        Overwrite(old(lastStatus), project.name, h, DownHealth(project, FAILED_RESPONSE_TIME, now));
        assert PreviousStatus(cached, project.name) == Some(h.status);
        return;
      }
      if previous != Some(h.status) {
        notices := notices + [StatusChanged(project.name, previous, h.status)];
      }
    }

    /**
     * `collectMetrics`, completed with the request's outcome: a 2xx reply's
     * reading is written; a non-2xx reply, an exception and a rejected write
     * change nothing. The monitor keeps no metrics of its own.
     */
    method CollectMetrics(project: Project, probe: MetricsProbe, write: WriteOutcome, now: int)
      modifies db`metricsTable
      ensures probe.MetricsOk? && write.Written? ==>
                db.metricsTable == old(db.metricsTable) + [MetricsRowOf(project.name, MetricsFrom(project, probe.body, now), now)]
      ensures !(probe.MetricsOk? && write.Written?) ==> db.metricsTable == old(db.metricsTable)
    {
      if !probe.MetricsOk? {
        return;
      }
      var metrics := MetricsFrom(project, probe.body, now);
      var _ := db.RecordMetrics(project.name, metrics, now, write);
    }

    /**
     * `getStatus`: a new map holding the cached snapshots, keyed by project
     * name. Snapshots are values here, so sharing them with the cache is not
     * modelled.
     */
    function GetStatus(): (status: map<string, ProjectHealth>)
      requires Valid()
      reads this
      ensures forall n :: n in status ==> status[n].projectName == n
      ensures forall n :: n in status && !status[n].isRunning ==> status[n].status == "down" && status[n].uptime == 0.0
    {
      lastStatus
    }

    /** `getProjectStatus`: the cached snapshot of one project, or None. */
    function GetProjectStatus(name: string): (h: Option<ProjectHealth>)
      requires Valid()
      reads this
      ensures h.Some? <==> name in GetStatus()
      ensures h.Some? ==> h.value == GetStatus()[name] && h.value.projectName == name
    {
      if name in lastStatus then Some(lastStatus[name]) else None
    }
  }

  /**
   * Two projects sharing a name leave one entry per registry, holding the
   * timers of the second project: the first project's timers (ids 0 and 1)
   * are registered nowhere.
   */
  lemma DuplicateRegistries(p: Project, q: Project)
    requires p.name == q.name
    ensures Registry([p, q], 0, 0) == map[p.name := 2]
    ensures Registry([p, q], 0, 1) == map[p.name := 3]
  {
    assert [p, q][..1] == [p];
    assert [p][..0] == [];
    assert Registry([p], 0, 0) == map[p.name := 0];
    assert Registry([p], 0, 1) == map[p.name := 1];
  }

  /**
   * Two projects sharing a name: after start and stop, the first project's
   * timers were never registered, so they are still live and keep firing.
   */
  method DuplicateNamesLeakTimers(db: Database, p: Project, q: Project)
    requires p.name == q.name
    modifies db`initialized
  {
    var monitor := new ProjectMonitor([p, q], db);
    monitor.Start(Reachable);
    DuplicateRegistries(p, q);
    JobsAt([p, q]);
    assert monitor.healthTimers == map[p.name := 2] && monitor.metricsTimers == map[p.name := 3];
    assert 0 !in monitor.healthTimers.Values && 1 !in monitor.healthTimers.Values;
    assert 0 !in monitor.metricsTimers.Values && 1 !in monitor.metricsTimers.Values;
    assert |monitor.timers| == 4 && monitor.cleared == {};
    assert 0 in monitor.Active() && 1 in monitor.Active();
    monitor.Stop();
    assert 0 in monitor.Active() && 1 in monitor.Active();
    monitor.Tick(0);
    assert monitor.issued[|monitor.issued| - 1] == HealthJob(p);
    var fixed := new ProjectMonitor([p, q], db);
    fixed.Start(Reachable);
    fixed.StopClearingAll();
    assert 0 !in fixed.Active() && 1 !in fixed.Active();
  }
}
