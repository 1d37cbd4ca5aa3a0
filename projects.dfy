/**
 * The lifecycle engine of `ProjectService`: the launch strategies, the start,
 * stop and restart decisions, and the service object that keeps the cache of
 * the last status computed for each project. The port probe, the process
 * listing, the file system, the shell and the settle delays are outside the
 * model: every call receives what they answered as arguments.
 */
module Projects {
  import opened Wrappers
  import opened Builtins
  import opened ProcessTable
  import opened Reconcile

  // ---------------------------------------------------------------------------
  // Launch strategies
  // ---------------------------------------------------------------------------

  /** The outcome of one shell command: success, or failure with its captured standard error. */
  datatype ExecOutcome = Succeeded | Failed(stderr: string)

  /** What the file system and the shell answer to one strategy call. */
  datatype LaunchEnv = LaunchEnv(dirExists: bool, exec: ExecOutcome)

  datatype LaunchMode = Compose | Script | Manual

  /** The strategy a definition selects: Docker Compose first, then a service script, else manual. */
  function ModeOf(cfg: ProjectConfig): LaunchMode {
    if cfg.dockerCompose then Compose
    else if Truthy(cfg.serviceScript) then Script
    else Manual
  }

  const AlreadyRunningMessage := "El proyecto ya está en ejecución"
  const NotRunningMessage := "El proyecto no está en ejecución"
  const ComposeStartedMessage := "Proyecto Docker iniciado correctamente"
  const ComposeStoppedMessage := "Proyecto Docker detenido correctamente"
  const ManualStartMessage := "Proyecto requiere inicio manual - revisa la documentación"
  const ManualStopMessage := "Procesos detenidos manualmente"

  /**
   * The `TypeError` both script strategies throw: the `path` they destructure
   * from the definition is a string and hides the `path` module, so
   * `path.join(...)` is not a function.
   */
  const ScriptPathError := "path.join is not a function"

  /** The `TypeError` thrown by reading `newStatus.port.url` when the re-probe failed and the status has no `port`. */
  const MissingPortError := "Cannot read properties of undefined (reading 'url')"

  /** `dockerPath || path` */
  function WorkingDir(cfg: ProjectConfig): string {
    if Truthy(cfg.dockerPath) then cfg.dockerPath.value else cfg.path
  }

  /** `startDockerProject`: the working directory must exist, then `docker-compose up -d` must succeed. */
  function StartCompose(cfg: ProjectConfig, env: LaunchEnv): Result<string, string> {
    if !env.dirExists then Err("Directorio no encontrado: " + WorkingDir(cfg))
    else
      match env.exec
      case Succeeded => Ok(ComposeStartedMessage)
      case Failed(stderr) => Err("Docker Compose error: " + stderr)
  }

  /** `stopDockerProject`: `docker-compose down` must succeed; the directory is not checked. */
  function StopCompose(env: LaunchEnv): Result<string, string> {
    match env.exec
    case Succeeded => Ok(ComposeStoppedMessage)
    case Failed(stderr) => Err("Docker Compose error: " + stderr)
  }

  /** The start strategy of a definition: its message, or the message of the error it throws. */
  function StartStrategy(cfg: ProjectConfig, env: LaunchEnv): (r: Result<string, string>)
    ensures ModeOf(cfg) == Script ==> r == Err(ScriptPathError)
    ensures ModeOf(cfg) == Manual ==> r == Ok(ManualStartMessage)
    ensures ModeOf(cfg) == Compose && !env.dirExists ==> r == Err("Directorio no encontrado: " + WorkingDir(cfg))
    ensures ModeOf(cfg) == Compose && env.dirExists && env.exec == Succeeded ==> r == Ok(ComposeStartedMessage)
    ensures ModeOf(cfg) == Compose && env.dirExists && env.exec.Failed? ==> r == Err("Docker Compose error: " + env.exec.stderr)
    ensures r.Ok? ==> r.value in {ComposeStartedMessage, ManualStartMessage}
  {
    match ModeOf(cfg)
    case Compose => StartCompose(cfg, env)
    case Script => Err(ScriptPathError)
    case Manual => Ok(ManualStartMessage)
  }

  /**
   * `stopManualProject`: tries to kill every process of the status and logs
   * each failed attempt, then answers with its completion message. The loop
   * calls `kill` on the process record it iterates over, which has no such
   * method, so every attempt throws: nothing is killed and every process is
   * logged, in order, as a failure.
   */
  method StopManualProject(processes: seq<ProcessInfo>) returns (message: string, failed: seq<ParsedInt>)
    ensures message == ManualStopMessage
    ensures |failed| == |processes|
    ensures forall k :: 0 <= k < |processes| ==> failed[k] == processes[k].pid
  {
    failed := [];
    for i := 0 to |processes|
      invariant |failed| == i
      invariant forall k :: 0 <= k < i ==> failed[k] == processes[k].pid
    {
      failed := failed + [processes[i].pid];
    }
    message := ManualStopMessage;
  }

  /** The stop strategy of a definition; the manual one is `StopManualProject`, whose message is `ManualStopMessage`. */
  function StopStrategy(cfg: ProjectConfig, env: LaunchEnv): (r: Result<string, string>)
    ensures ModeOf(cfg) == Script ==> r == Err(ScriptPathError)
    ensures ModeOf(cfg) == Manual ==> r == Ok(ManualStopMessage)
    ensures ModeOf(cfg) == Compose && env.exec == Succeeded ==> r == Ok(ComposeStoppedMessage)
    ensures ModeOf(cfg) == Compose && env.exec.Failed? ==> r == Err("Docker Compose error: " + env.exec.stderr)
    ensures r.Ok? ==> r.value in {ComposeStoppedMessage, ManualStopMessage}
  {
    match ModeOf(cfg)
    case Compose => StopCompose(env)
    case Script => Err(ScriptPathError)
    case Manual => Ok(ManualStopMessage)
  }

  // ---------------------------------------------------------------------------
  // Start and stop decisions
  // ---------------------------------------------------------------------------

  /** The reply of `startProject` and `stopProject`; `url` is absent from stop replies and from short-circuit replies. */
  datatype Reply = Reply(success: bool, message: string, url: Option<string>)

  /** What one lifecycle call returns (or the message it throws), and the status it writes to the cache, if any. */
  datatype Step = Step(reply: Result<Reply, string>, stored: Option<ProjectStatus>)

  function StartErrorPrefix(name: string): string { "Error iniciando " + name + ": " }
  function StopErrorPrefix(name: string): string { "Error deteniendo " + name + ": " }

  predicate HasPrefix(s: string, prefix: string) {
    |prefix| <= |s| && s[..|prefix|] == prefix
  }

  /**
   * `startProject(id)` given the status probe before the call, the answers to
   * the strategy, and the status probe after the settle delay.
   */
  function StartDecision(configs: map<string, ProjectConfig>, id: string, before: Observation, env: LaunchEnv, after: Observation): (step: Step)
    // an unknown id throws, unwrapped, before anything else
    ensures id !in configs ==> step == Step(Err(NotFoundMessage(id)), None)
    // a running project is left alone: no strategy, no re-probe, no cache write
    ensures id in configs && ComputeStatus(id, configs[id], before).IsRunning() ==>
      step == Step(Ok(Reply(false, AlreadyRunningMessage, None)), None)
    // whatever is cached is the fresh status after the settle delay
    ensures step.stored.Some? ==> id in configs && step.stored.value == ComputeStatus(id, configs[id], after)
    // success is exactly the re-probe's running flag, and the URL is the re-probe's
    ensures step.reply.Ok? && step.stored.Some? ==>
      && step.stored.value.Checked?
      && step.reply.value.success == step.stored.value.running
      && step.reply.value.url == step.stored.value.url
    // every other failure is wrapped with the project's name
    ensures id in configs && step.reply.Err? ==> HasPrefix(step.reply.error, StartErrorPrefix(configs[id].name))
    // a script project that is not running always fails, and nothing is cached
    ensures id in configs && ModeOf(configs[id]) == Script && !ComputeStatus(id, configs[id], before).IsRunning() ==>
      step == Step(Err(StartErrorPrefix(configs[id].name) + ScriptPathError), None)
    // a project that is not running: a strategy that throws is wrapped and nothing is cached; otherwise
    // the re-probe is cached and answers the reply, or its missing URL throws
    ensures id in configs && !ComputeStatus(id, configs[id], before).IsRunning() ==>
      var cfg := configs[id];
      var r := StartStrategy(cfg, env);
      var s := ComputeStatus(id, cfg, after);
      && (r.Err? ==> step == Step(Err(StartErrorPrefix(cfg.name) + r.error), None))
      && (r.Ok? && s.Checked? ==> step == Step(Ok(Reply(s.running, r.value, s.url)), Some(s)))
      && (r.Ok? && !s.Checked? ==> step == Step(Err(StartErrorPrefix(cfg.name) + MissingPortError), Some(s)))
  {
    if id !in configs then Step(Err(NotFoundMessage(id)), None)
    else
      var cfg := configs[id];
      var current := ComputeStatus(id, cfg, before);
      if current.IsRunning() then Step(Ok(Reply(false, AlreadyRunningMessage, None)), None)
      else
        match StartStrategy(cfg, env)
        case Err(e) => Step(Err(StartErrorPrefix(cfg.name) + e), None)
        case Ok(msg) =>
          var newStatus := ComputeStatus(id, cfg, after);
          if newStatus.Checked? then Step(Ok(Reply(newStatus.running, msg, newStatus.url)), Some(newStatus))
          else Step(Err(StartErrorPrefix(cfg.name) + MissingPortError), Some(newStatus))
  }

  /** `stopProject(id)`, symmetric to `StartDecision`; success is the negation of the re-probe's running flag. */
  function StopDecision(configs: map<string, ProjectConfig>, id: string, before: Observation, env: LaunchEnv, after: Observation): (step: Step)
    ensures id !in configs ==> step == Step(Err(NotFoundMessage(id)), None)
    ensures id in configs && !ComputeStatus(id, configs[id], before).IsRunning() ==>
      step == Step(Ok(Reply(false, NotRunningMessage, None)), None)
    ensures step.stored.Some? ==> id in configs && step.stored.value == ComputeStatus(id, configs[id], after)
    ensures step.reply.Ok? && step.stored.Some? ==>
      step.reply.value.success == !step.stored.value.IsRunning() && step.reply.value.url == None
    ensures step.reply.Ok? ==> step.stored.Some? || !step.reply.value.success
    ensures id in configs && step.reply.Err? ==> HasPrefix(step.reply.error, StopErrorPrefix(configs[id].name)) && step.stored == None
    ensures id in configs && ModeOf(configs[id]) == Script && ComputeStatus(id, configs[id], before).IsRunning() ==>
      step == Step(Err(StopErrorPrefix(configs[id].name) + ScriptPathError), None)
    ensures id in configs && ComputeStatus(id, configs[id], before).IsRunning() ==>
      var cfg := configs[id];
      var r := StopStrategy(cfg, env);
      var s := ComputeStatus(id, cfg, after);
      && (r.Err? ==> step == Step(Err(StopErrorPrefix(cfg.name) + r.error), None))
      && (r.Ok? ==> step == Step(Ok(Reply(!s.IsRunning(), r.value, None)), Some(s)))
  {
    if id !in configs then Step(Err(NotFoundMessage(id)), None)
    else
      var cfg := configs[id];
      var current := ComputeStatus(id, cfg, before);
      if !current.IsRunning() then Step(Ok(Reply(false, NotRunningMessage, None)), None)
      else
        match StopStrategy(cfg, env)
        case Err(e) => Step(Err(StopErrorPrefix(cfg.name) + e), None)
        case Ok(msg) =>
          var newStatus := ComputeStatus(id, cfg, after);
          Step(Ok(Reply(!newStatus.IsRunning(), msg, None)), Some(newStatus))
  }

  /** Starting a running project ignores the strategy's and the re-probe's answers: nothing is launched. */
  lemma StartShortCircuitLaunchesNothing(configs: map<string, ProjectConfig>, id: string, before: Observation,
                                         env1: LaunchEnv, after1: Observation, env2: LaunchEnv, after2: Observation)
    requires id in configs && ComputeStatus(id, configs[id], before).IsRunning()
    ensures StartDecision(configs, id, before, env1, after1) == StartDecision(configs, id, before, env2, after2)
    ensures StartDecision(configs, id, before, env1, after1).stored == None
  {
  }

  /**
   * A Docker Compose project that is down starts successfully when the command
   * succeeds and, after the settle delay, some listed process matches by name
   * while the port is open; the reply carries the service URL.
   */
  lemma ComposeStartSucceeds(configs: map<string, ProjectConfig>, id: string, before: Observation, env: LaunchEnv,
                             stdout: string, k: nat)
    requires id in configs && configs[id].dockerCompose
    requires !ComputeStatus(id, configs[id], before).IsRunning()
    requires env == LaunchEnv(true, Succeeded)
    requires k < |ParseListing(stdout)| && Contains(ParseListing(stdout)[k].cmd, id) && ParseListing(stdout)[k].cmd != []
    ensures StartDecision(configs, id, before, env, Observation(Ok(Open), Ok(stdout))).reply
      == Ok(Reply(true, ComposeStartedMessage, ServiceUrl(configs[id], true)))
  {
    ComputeStatusRunning(id, configs[id], Observation(Ok(Open), Ok(stdout)));
  }

  /**
   * Manual stop kills nothing: when the project still shows the same processes
   * and port after the settle delay, the stop reports failure with the manual
   * completion message.
   */
  lemma ManualStopChangesNothing(configs: map<string, ProjectConfig>, id: string, obs: Observation, env: LaunchEnv)
    requires id in configs && ModeOf(configs[id]) == Manual
    requires ComputeStatus(id, configs[id], obs).IsRunning()
    ensures StopDecision(configs, id, obs, env, obs) ==
      Step(Ok(Reply(false, ManualStopMessage, None)), Some(ComputeStatus(id, configs[id], obs)))
  {
  }

  /** A failed re-probe after a stop reads as "not running", so the stop reports success. */
  lemma StopSucceedsOnFailedReprobe(configs: map<string, ProjectConfig>, id: string, before: Observation, env: LaunchEnv, error: string)
    requires id in configs && ComputeStatus(id, configs[id], before).IsRunning()
    requires StopStrategy(configs[id], env).Ok?
    ensures StopDecision(configs, id, before, env, Observation(Err(error), before.listing)).reply.value.success
  {
  }

  /**
   * A failed re-probe after a launch is cached, but reading its URL throws, so
   * the start fails with the wrapped `TypeError`.
   */
  lemma StartFailsOnFailedReprobe(configs: map<string, ProjectConfig>, id: string, before: Observation, env: LaunchEnv, error: string)
    requires id in configs && !ComputeStatus(id, configs[id], before).IsRunning()
    requires StartStrategy(configs[id], env).Ok?
    ensures StartDecision(configs, id, before, env, Observation(Err(error), before.listing)) ==
      Step(Err(StartErrorPrefix(configs[id].name) + MissingPortError), Some(ProbeFailed(error)))
  {
  }

  // ---------------------------------------------------------------------------
  // The service object
  // ---------------------------------------------------------------------------

  /** The configuration file as loaded: its project ids in file order, and each id's definition. */
  datatype ConfigTable = ConfigTable(order: seq<string>, byId: map<string, ProjectConfig>)

  /** The ids of a JSON object are distinct, and they are exactly the keys of the definitions. */
  ghost predicate WellFormed(table: ConfigTable) {
    && (forall i, j :: 0 <= i < j < |table.order| ==> table.order[i] != table.order[j])
    && (forall id :: id in table.byId <==> id in table.order)
  }

  /** A project as `getAllProjects` lists it: its id, its definition and its cached status. */
  datatype ProjectView = ProjectView(id: string, config: ProjectConfig, status: ProjectStatus)

  lemma {:induction false} DistinctCardinality(s: seq<string>)
    requires forall i, j :: 0 <= i < j < |s| ==> s[i] != s[j]
    ensures |set x | x in s| == |s|
    decreases |s|
  {
    if s != [] {
      DistinctCardinality(s[1..]);
      assert (set x | x in s) == {s[0]} + (set x | x in s[1..]);
      assert s[0] !in (set x | x in s[1..]);
    }
  }

  class ProjectService {
    /** The definitions, loaded once. */
    const configs: map<string, ProjectConfig>
    /** The ids in the configuration file's order (`Object.keys`). */
    const order: seq<string>
    /** `projectStatuses`: the last status computed for each project. */
    var statuses: map<string, ProjectStatus>

    /**
     * The ids are the configuration's; the cache holds computed statuses of
     * configured projects only.
     */
    ghost predicate Valid()
      reads this
    {
      && WellFormed(ConfigTable(order, configs))
      && (forall id :: id in statuses ==> id in configs && statuses[id] != NotChecked)
    }

    /**
     * `new ProjectService()`: the configuration as loaded, or no project at all
     * when it could not be read; the cache starts empty (`InitializeStatuses`
     * fills it).
     */
    constructor (loaded: Option<ConfigTable>)
      requires loaded.Some? ==> WellFormed(loaded.value)
      ensures Valid()
      ensures loaded.Some? ==> configs == loaded.value.byId && order == loaded.value.order
      ensures loaded.None? ==> configs == map[] && order == []
      ensures statuses == map[]
    {
      if loaded.Some? {
        configs, order := loaded.value.byId, loaded.value.order;
      } else {
        configs, order := map[], [];
      }
      statuses := map[];
    }

    /** `getProjectsCount()`: the number of configured projects. */
    function ProjectsCount(): (n: nat)
      reads this
      requires Valid()
      ensures n == |configs|
    {
      DistinctCardinality(order);
      assert configs.Keys == set x | x in order;
      |order|
    }

    /**
     * `getAllProjects()`: every configured project once, in configuration
     * order, with its cached status, or the not-checked placeholder.
     */
    function AllProjects(): (views: seq<ProjectView>)
      reads this
      requires Valid()
      ensures |views| == |configs|
      ensures forall i :: 0 <= i < |views| ==> views[i].id in configs && views[i].config == configs[views[i].id]
      ensures forall id :: id in configs ==> exists i :: 0 <= i < |views| && views[i].id == id
      ensures forall i :: 0 <= i < |views| ==>
        views[i].status == (if views[i].id in statuses then statuses[views[i].id] else NotChecked)
    {
      ProjectsCountIsSize();
      var views := seq(|order|, i requires 0 <= i < |order| reads this =>
        ProjectView(order[i], configs[order[i]], if order[i] in statuses then statuses[order[i]] else NotChecked));
      assert forall id :: id in configs ==> exists i :: 0 <= i < |views| && views[i].id == id by {
        forall id | id in configs
          ensures exists i :: 0 <= i < |views| && views[i].id == id
        {
          var i :| 0 <= i < |order| && order[i] == id;
          assert views[i].id == id;
        }
      }
      views
    }

    lemma ProjectsCountIsSize()
      requires Valid()
      ensures |order| == |configs|
    {
      var _ := ProjectsCount();
    }

    /** The status the probes' answers give a configured project. */
    function FreshStatus(probe: string -> Observation): string -> ProjectStatus {
      id => if id in configs then ComputeStatus(id, configs[id], probe(id)) else NotChecked
    }

    /**
     * `initializeStatuses()`: computes each project's status, in configuration
     * order, from what the probes answer for it, and caches it; afterwards the
     * cache holds a fresh status for every project and for nothing else.
     */
    method InitializeStatuses(probe: string -> Observation)
      requires Valid()
      modifies this
      ensures Valid()
      ensures statuses.Keys == configs.Keys
      ensures forall id :: id in statuses ==> statuses[id] == ComputeStatus(id, configs[id], probe(id))
    {
      var computed;
      statuses, computed := RefreshEach(order, statuses, FreshStatus(probe));
    }

    /**
     * `getAllProjectsStatus()`: recomputes every project's status, caches each
     * one and returns them all; afterwards the cache is exactly the result.
     */
    method GetAllProjectsStatus(probe: string -> Observation) returns (all: map<string, ProjectStatus>)
      requires Valid()
      modifies this
      ensures Valid()
      ensures all.Keys == configs.Keys
      ensures forall id :: id in all ==> all[id] == ComputeStatus(id, configs[id], probe(id))
      ensures statuses == all
    {
      ghost var before := statuses;
      statuses, all := RefreshEach(order, statuses, FreshStatus(probe));
      assert all.Keys == configs.Keys;
      UnionWithCovering(before, all);
    }

    /** `startProject(id)` */
    method StartProject(id: string, before: Observation, env: LaunchEnv, after: Observation) returns (r: Result<Reply, string>)
      requires Valid()
      modifies this
      ensures Valid()
      ensures var step := StartDecision(configs, id, before, env, after);
        && r == step.reply
        && (step.stored.None? ==> statuses == old(statuses))
        && (step.stored.Some? ==> statuses == old(statuses)[id := step.stored.value])
    {
      if id !in configs {
        return Err(NotFoundMessage(id));
      }
      var cfg := configs[id];
      var current := ComputeStatus(id, cfg, before);
      if current.IsRunning() {
        return Ok(Reply(false, AlreadyRunningMessage, None));
      }
      var launched := StartStrategy(cfg, env);
      if launched.Err? {
        return Err(StartErrorPrefix(cfg.name) + launched.error);
      }
      var newStatus := ComputeStatus(id, cfg, after);
      statuses := statuses[id := newStatus];
      if !newStatus.Checked? {
        return Err(StartErrorPrefix(cfg.name) + MissingPortError);
      }
      return Ok(Reply(newStatus.running, launched.value, newStatus.url));
    }

    /** `stopProject(id)`; the manual strategy runs `StopManualProject` on the current status's processes. */
    method StopProject(id: string, before: Observation, env: LaunchEnv, after: Observation) returns (r: Result<Reply, string>)
      requires Valid()
      modifies this
      ensures Valid()
      ensures var step := StopDecision(configs, id, before, env, after);
        && r == step.reply
        && (step.stored.None? ==> statuses == old(statuses))
        && (step.stored.Some? ==> statuses == old(statuses)[id := step.stored.value])
    {
      if id !in configs {
        return Err(NotFoundMessage(id));
      }
      var cfg := configs[id];
      var current := ComputeStatus(id, cfg, before);
      if !current.IsRunning() {
        return Ok(Reply(false, NotRunningMessage, None));
      }
      var stopped: Result<string, string>;
      match ModeOf(cfg) {
        case Compose =>
          stopped := StopCompose(env);
        case Script =>
          stopped := Err(ScriptPathError);
        case Manual =>
          var message, failed := StopManualProject(current.processes);
          stopped := Ok(message);
      }
      assert stopped == StopStrategy(cfg, env);
      if stopped.Err? {
        return Err(StopErrorPrefix(cfg.name) + stopped.error);
      }
      var newStatus := ComputeStatus(id, cfg, after);
      assert StopDecision(configs, id, before, env, after).stored == Some(newStatus);
      statuses := statuses[id := newStatus];
      return Ok(Reply(!newStatus.IsRunning(), stopped.value, None));
    }

    /**
     * `restartProject(id)`: a stop, whose failure propagates and whose reply is
     * otherwise discarded, then (after a delay) a start, whose reply is the
     * restart's.
     */
    method RestartProject(id: string,
                          stopBefore: Observation, stopEnv: LaunchEnv, stopAfter: Observation,
                          startBefore: Observation, startEnv: LaunchEnv, startAfter: Observation)
      returns (r: Result<Reply, string>)
      requires Valid()
      modifies this
      ensures Valid()
      ensures var stop := StopDecision(configs, id, stopBefore, stopEnv, stopAfter);
              var start := StartDecision(configs, id, startBefore, startEnv, startAfter);
              && (stop.reply.Err? ==> r == stop.reply && statuses == old(statuses))
              && (stop.reply.Ok? ==> r == start.reply)
              && (stop.reply.Ok? && start.stored.Some? ==> id in statuses && statuses[id] == start.stored.value)
              && (stop.reply.Ok? && start.stored.None? && stop.stored.Some? ==> statuses == old(statuses)[id := stop.stored.value])
              && (stop.reply.Ok? && start.stored.None? && stop.stored.None? ==> statuses == old(statuses))
      // every other project's entry is left as it was
      ensures forall other :: other != id ==>
        (other in statuses <==> other in old(statuses)) && (other in statuses ==> statuses[other] == old(statuses)[other])
    {
      var stopped := StopProject(id, stopBefore, stopEnv, stopAfter);
      if stopped.Err? {
        return stopped;
      }
      ghost var stop := StopDecision(configs, id, stopBefore, stopEnv, stopAfter);
      ghost var start := StartDecision(configs, id, startBefore, startEnv, startAfter);
      r := StartProject(id, startBefore, startEnv, startAfter);
    }
  }
}
