/** The main runner: gathers the tasks an application wants to run and the
    health checks it registers, then adds its own console-metrics and
    health-server tasks. */
module MainRunner {

  import opened HealthChecks
  import Health
  import opened Runtime

  /** A task to run: an application future, known by an opaque handle, or
      one of the runner's own tasks. */
  datatype Task =
    | Spawned(handle: nat)
    | HealthServerTask(config: Health.HealthServerConfig, checker: Health.HealthChecker)
    | ConsoleMetricsTask(periodSecs: nat)

  /** What a sub-runner is created from: the configuration and the shared
      health checker. */
  datatype SubMainSeed = SubMainSeed(config: RuntimeConfig, health: Health.HealthChecker)

  class SubMain {
    const config: RuntimeConfig
    const health: Health.HealthChecker
    var tasks: seq<Task>

    /** `SubMain::new`: no tasks yet. */
    constructor (config: RuntimeConfig, health: Health.HealthChecker)
      ensures this.config == config && this.health == health && tasks == []
      ensures IsEmpty()
    {
      this.config := config;
      this.health := health;
      tasks := [];
    }

    /** `From<SubMainSeed>`: the seed's configuration and checker, no tasks. */
    constructor FromSeed(seed: SubMainSeed)
      ensures config == seed.config && health == seed.health && tasks == []
      ensures IsEmpty()
    {
      config := seed.config;
      health := seed.health;
      tasks := [];
    }

    /** `is_empty`: no task has been recorded. */
    predicate IsEmpty()
      reads this
      ensures IsEmpty() <==> forall t :: t !in tasks
    {
      assert |tasks| > 0 ==> tasks[0] in tasks;
      |tasks| == 0
    }

    /** `sub_main_seed`: this runner's configuration and the same checker. */
    function Seed(): (s: SubMainSeed)
      ensures s.config == config && s.health == health
    {
      SubMainSeed(config, health)
    }

    /** `sub_main`: a new runner sharing configuration and checker, with
        tasks of its own. */
    method SubMainInstance() returns (s: SubMain)
      ensures fresh(s)
      ensures s.config == config && s.health == health && s.tasks == []
    {
      s := new SubMain.FromSeed(Seed());
    }

    /** `extend`: the tasks are appended in order. */
    method Extend(more: seq<Task>)
      modifies this
      ensures tasks == old(tasks) + more
      ensures IsEmpty() <==> old(IsEmpty()) && more == []
    {
      tasks := tasks + more;
    }

    /** `spawn_boxed`: the task is appended. */
    method SpawnBoxed(task: Task)
      modifies this
      ensures tasks == old(tasks) + [task]
      ensures !IsEmpty()
    {
      tasks := tasks + [task];
    }

    /** `spawn_iter`: every task spawned once, in order. */
    method SpawnIter(items: seq<Task>)
      modifies this
      ensures tasks == old(tasks) + items
      ensures IsEmpty() <==> old(IsEmpty()) && items == []
    {
      for i := 0 to |items|
        invariant tasks == old(tasks) + items[..i]
      {
        SpawnBoxed(items[i]);
        assert items[..i + 1] == items[..i] + [items[i]];
      }
      assert items[..|items|] == items;
    }

    /** `check_boxed`: the check goes to the shared checker. */
    method CheckBoxed(check: HealthCheck)
      modifies health
      ensures health.checks == old(health.checks) + [check]
    {
      health.Push(check);
    }

    /** `check_iter`: every check registered once, in order. */
    method CheckIter(items: seq<HealthCheck>)
      modifies health
      ensures health.checks == old(health.checks) + items
    {
      for i := 0 to |items|
        invariant health.checks == old(health.checks) + items[..i]
      {
        CheckBoxed(items[i]);
        assert items[..i + 1] == items[..i] + [items[i]];
      }
      assert items[..|items|] == items;
    }

    /** `use_tracing`. */
    function UseTracing(): (b: bool)
      ensures b <==> !config.tracing.Disabled?
    {
      IsEnabled(config.tracing)
    }
  }

  /** Spawning one at a time and extending with the whole list agree. */
  method SpawnAgreesWithExtend(config: RuntimeConfig, items: seq<Task>) returns (a: seq<Task>, b: seq<Task>)
    ensures a == b == items
  {
    var checker := new Health.HealthChecker();
    var one := new SubMain(config, checker);
    one.SpawnIter(items);
    var all := new SubMain(config, checker);
    all.Extend(items);
    a, b := one.tasks, all.tasks;
  }

  /** The task the runner adds for the health server, if enabled. */
  function HealthServerTasks(config: RuntimeConfig, checker: Health.HealthChecker): (r: seq<Task>)
    ensures |r| == (if config.health.enabled then 1 else 0)
    ensures config.health.enabled ==> r == [HealthServerTask(config.health, checker)]
  {
    if config.health.enabled then [HealthServerTask(config.health, checker)] else []
  }

  /** The task the runner adds for console metrics, if enabled. */
  function ConsoleMetricsTasks(config: RuntimeConfig): (r: seq<Task>)
    ensures |r| == (if config.consoleMetrics.enabled then 1 else 0)
    ensures config.consoleMetrics.enabled ==> r == [ConsoleMetricsTask(config.consoleMetrics.periodSecs)]
  {
    if config.consoleMetrics.enabled then [ConsoleMetricsTask(config.consoleMetrics.periodSecs)] else []
  }

  class Main {
    const sub: SubMain

    /** `Main::new`: a runner with a fresh, empty health checker. */
    constructor (config: RuntimeConfig)
      ensures fresh(sub) && fresh(sub.health)
      ensures sub.config == config && sub.tasks == [] && sub.health.checks == []
    {
      var checker := new Health.HealthChecker();
      sub := new SubMain(config, checker);
    }

    /** `Main::default`: the default runtime configuration. */
    constructor Default()
      ensures fresh(sub) && fresh(sub.health)
      ensures sub.config == DefaultRuntimeConfig() && sub.tasks == [] && sub.health.checks == []
    {
      var checker := new Health.HealthChecker();
      sub := new SubMain(DefaultRuntimeConfig(), checker);
    }

    /** `add_tasks`. */
    method AddTasks(more: seq<Task>)
      modifies sub
      ensures sub.tasks == old(sub.tasks) + more
      ensures sub.IsEmpty() <==> old(sub.IsEmpty()) && more == []
    {
      sub.Extend(more);
    }

    /** `add_checks`. */
    method AddChecks(more: seq<HealthCheck>)
      modifies sub.health
      ensures sub.health.checks == old(sub.health.checks) + more
    {
      sub.health.Extend(more);
    }

    method SpawnBoxed(task: Task)
      modifies sub
      ensures sub.tasks == old(sub.tasks) + [task]
      ensures !sub.IsEmpty()
    {
      sub.SpawnBoxed(task);
    }

    method CheckBoxed(check: HealthCheck)
      modifies sub.health
      ensures sub.health.checks == old(sub.health.checks) + [check]
    {
      sub.CheckBoxed(check);
    }

    function UseTracing(): (b: bool)
      ensures b == sub.UseTracing()
    {
      sub.UseTracing()
    }

    function RuntimeConfig(): (c: RuntimeConfig)
      ensures c == sub.config
    {
      sub.config
    }

    /** `run_health_server`: one health-server task over the shared checker
        when the health server is enabled. */
    method RunHealthServer()
      modifies sub
      ensures sub.tasks == old(sub.tasks) + HealthServerTasks(sub.config, sub.health)
    {
      if sub.config.health.enabled {
        sub.SpawnBoxed(HealthServerTask(sub.config.health, sub.health));
      }
    }

    /** `run_console_metrics`: one console-metrics task when enabled. */
    method RunConsoleMetrics()
      modifies sub
      ensures sub.tasks == old(sub.tasks) + ConsoleMetricsTasks(sub.config)
    {
      if sub.config.consoleMetrics.enabled {
        sub.SpawnBoxed(ConsoleMetricsTask(sub.config.consoleMetrics.periodSecs));
      }
    }

    /** `Main::run` up to running the tasks: the console-metrics task, then
        the health-server task, after the application's own; the result is
        the list that is then run. */
    method Run() returns (scheduled: seq<Task>)
      modifies sub
      ensures scheduled == sub.tasks
      ensures scheduled == old(sub.tasks) + ConsoleMetricsTasks(sub.config) + HealthServerTasks(sub.config, sub.health)
    {
      RunConsoleMetrics();
      RunHealthServer();
      scheduled := sub.tasks;
    }
  }
}
