/**
 * Reconciliation of one project: which processes of the listing belong to it,
 * whether it is running, and the URL it serves, computed from the project's
 * definition and one observation of its port and of the process listing
 * (`getProjectStatus`, `isProcessOnPort` and `getServiceUrl`).
 */
module Reconcile {
  import opened Wrappers
  import opened Builtins
  import opened ProcessTable

  /** The answers of the port probe. */
  datatype PortState = Open | Closed

  /**
   * A project definition from the configuration file. `dockerCompose` stands
   * for the truthiness of that entry, the only use the services make of it.
   */
  datatype ProjectConfig = ProjectConfig(
    name: string,
    path: string,
    defaultPort: int,
    dockerCompose: bool,
    dockerPath: Option<string>,
    serviceScript: Option<string>,
    healthCheckType: Option<string>)

  /**
   * One look at the host, taken by the probes the model leaves out: the port
   * probe's answer and the standard output of `ps aux`, or the message of the
   * error either of them failed with.
   */
  datatype Observation = Observation(port: Result<PortState, string>, listing: Result<string, string>)

  /** What a status reports of each matched process. */
  datatype ProcessInfo = ProcessInfo(pid: ParsedInt, name: string, cmd: string)

  /**
   * A project's status: a completed check; a check whose probe failed (reported
   * as not running, with no process id); or the placeholder shown for a project
   * that has never been checked.
   */
  datatype ProjectStatus =
    | Checked(
        running: bool,
        pid: Option<ParsedInt>,
        processes: seq<ProcessInfo>,
        portNumber: int,
        portStatus: PortState,
        url: Option<string>)
    | ProbeFailed(error: string)
    | NotChecked
  {
    predicate IsRunning() {
      Checked? && running
    }
  }

  /** `name.toLowerCase().replace(/\s+/g, '-')` */
  function Slug(name: string): (slug: string)
    ensures NoSpace(slug)
    ensures forall i :: 0 <= i < |slug| ==> !IsUpper(slug[i])
  {
    var lower := ToLower(name);
    assert forall c :: c in lower ==> !IsUpper(c);
    CollapseSpaces(lower)
  }

  /**
   * A name made of words separated by single white-space characters slugs to
   * its lower-cased words joined by `-`.
   */
  lemma SlugOfWords(ws: seq<string>, sep: char)
    requires IsSpace(sep)
    requires forall i :: 0 <= i < |ws| ==> ws[i] != [] && NoSpace(ws[i])
    ensures Slug(JoinWith(ws, sep)) == JoinWith(LowerEach(ws), '-')
  {
    ToLowerOfJoin(ws, sep);
    CollapseSpacesOfJoin(LowerEach(ws), sep);
  }

  /** Slugging a slug changes nothing. */
  lemma SlugIdempotent(name: string)
    ensures Slug(Slug(name)) == Slug(name)
  {
    var slug := Slug(name);
    assert ToLower(slug) == slug;
    CollapseSpacesOfSpaceless(slug);
  }

  /**
   * `isProcessOnPort`: the command line mentions `:<port>`, or looks like a
   * server runtime (`node`, `python`, `docker`).
   */
  predicate IsProcessOnPort(p: ProcessRecord, port: int) {
    && p.cmd != []
    && (|| Contains(p.cmd, ":" + IntToString(port))
        || Contains(p.cmd, "node")
        || Contains(p.cmd, "python")
        || Contains(p.cmd, "docker"))
  }

  /** The three name rules: the command line mentions the id, the slug of the display name, or the service script. */
  predicate MatchesByName(p: ProcessRecord, id: string, cfg: ProjectConfig) {
    || Contains(p.cmd, id)
    || Contains(p.cmd, Slug(cfg.name))
    || (Truthy(cfg.serviceScript) && Contains(p.cmd, cfg.serviceScript.value))
  }

  /** The filter of `getProjectStatus`: a name rule, or the runtime heuristic while the port is open. */
  predicate Matches(p: ProcessRecord, id: string, cfg: ProjectConfig, portStatus: PortState) {
    p.cmd != [] && (MatchesByName(p, id, cfg) || (portStatus == Open && IsProcessOnPort(p, cfg.defaultPort)))
  }

  /** The processes of the listing that belong to the project, in listing order. */
  function MatchedProcesses(procs: seq<ProcessRecord>, id: string, cfg: ProjectConfig, portStatus: PortState): (matched: seq<ProcessRecord>)
    ensures |matched| <= |procs|
    ensures forall i :: 0 <= i < |matched| ==> matched[i] in procs && Matches(matched[i], id, cfg, portStatus)
    ensures forall i :: 0 <= i < |procs| && Matches(procs[i], id, cfg, portStatus) ==> procs[i] in matched
  {
    Filter(procs, p => Matches(p, id, cfg, portStatus))
  }

  /**
   * The matched processes keep the listing's order and multiplicity: a listing
   * split in two matches part by part, and a single process is kept exactly
   * when it matches. The two facts together determine the result.
   */
  lemma MatchedProcessesInOrder(a: seq<ProcessRecord>, b: seq<ProcessRecord>, p: ProcessRecord, id: string, cfg: ProjectConfig, portStatus: PortState)
    ensures MatchedProcesses(a + b, id, cfg, portStatus) == MatchedProcesses(a, id, cfg, portStatus) + MatchedProcesses(b, id, cfg, portStatus)
    ensures MatchedProcesses([p], id, cfg, portStatus) == if Matches(p, id, cfg, portStatus) then [p] else []
  {
    FilterAppend(a, b, q => Matches(q, id, cfg, portStatus));
    assert [p][1..] == [];
  }

  /** While the port is not open, a process belongs to the project by the name rules alone. */
  lemma ClosedPortMatchesByName(procs: seq<ProcessRecord>, id: string, cfg: ProjectConfig, portStatus: PortState)
    requires portStatus != Open
    ensures MatchedProcesses(procs, id, cfg, portStatus) == Filter(procs, (p: ProcessRecord) => p.cmd != [] && MatchesByName(p, id, cfg))
  {
    FilterCongruent(procs, p => Matches(p, id, cfg, portStatus), (p: ProcessRecord) => p.cmd != [] && MatchesByName(p, id, cfg));
  }

  /** While the port is open, any process whose command line mentions `node` belongs to every project. */
  lemma OpenPortHeuristicOverMatches(procs: seq<ProcessRecord>, i: nat, id: string, cfg: ProjectConfig)
    requires i < |procs| && Contains(procs[i].cmd, "node")
    ensures procs[i] in MatchedProcesses(procs, id, cfg, Open)
  {
  }

  /** `getServiceUrl(config, isOpen)` */
  function ServiceUrl(cfg: ProjectConfig, portOpen: bool): Option<string> {
    if !portOpen then None
    else
      var scheme := if cfg.healthCheckType == Some("https") then "https" else "http";
      Some(scheme + "://localhost:" + IntToString(cfg.defaultPort))
  }

  /**
   * There is a URL exactly when the port is open; it reads back as `https`
   * exactly when the health check is of type `https`, and its port reads back
   * as the default port.
   */
  lemma ServiceUrlReadsBack(cfg: ProjectConfig, portOpen: bool)
    ensures ServiceUrl(cfg, portOpen).Some? <==> portOpen
    ensures portOpen ==>
      var url := ServiceUrl(cfg, portOpen).value;
      && |url| > 13
      && (url[..5] == "https" <==> cfg.healthCheckType == Some("https"))
      && (var n := if cfg.healthCheckType == Some("https") then 5 else 4;
          && url[..n] == (if cfg.healthCheckType == Some("https") then "https" else "http")
          && url[n..n + 13] == "://localhost:" && ParseInt(url[n + 13..]) == Int(cfg.defaultPort))
  {
    if portOpen {
      var url := ServiceUrl(cfg, portOpen).value;
      var n := if cfg.healthCheckType == Some("https") then 5 else 4;
      var scheme := if cfg.healthCheckType == Some("https") then "https" else "http";
      UrlParts(scheme, IntToString(cfg.defaultPort));
      ParseIntOfIntToString(cfg.defaultPort);
      if cfg.healthCheckType != Some("https") {
        assert url[4] == ':';
      }
    }
  }

  /** The three parts of a URL written as scheme, host and port digits. */
  lemma UrlParts(scheme: string, digits: string)
    ensures var url := scheme + "://localhost:" + digits;
      url[..|scheme|] == scheme && url[|scheme|..|scheme| + 13] == "://localhost:" && url[|scheme| + 13..] == digits
  {
  }

  function Summary(p: ProcessRecord): ProcessInfo {
    ProcessInfo(p.pid, p.name, p.cmd)
  }

  /** The status built from a successful probe of the port and of the listing. */
  function CheckedStatus(id: string, cfg: ProjectConfig, portStatus: PortState, procs: seq<ProcessRecord>): (s: ProjectStatus)
    ensures s.Checked? && s.portStatus == portStatus && s.portNumber == cfg.defaultPort
    ensures s.running <==> s.processes != [] && portStatus == Open
    ensures s.pid.None? <==> s.processes == []
    ensures s.processes != [] ==> s.pid == Some(s.processes[0].pid)
    ensures s.url.Some? <==> portStatus == Open
    ensures var m := MatchedProcesses(procs, id, cfg, portStatus);
      && s.processes == seq(|m|, i requires 0 <= i < |m| => Summary(m[i]))
      && s.pid == (if m == [] then None else Some(m[0].pid))
    ensures s.url == ServiceUrl(cfg, portStatus == Open)
  {
    var matched := MatchedProcesses(procs, id, cfg, portStatus);
    assert matched != [] ==> matched[0] in procs;
    Checked(
      running := |matched| > 0 && portStatus == Open,
      pid := if |matched| > 0 then Some(matched[0].pid) else None,
      processes := seq(|matched|, i requires 0 <= i < |matched| => Summary(matched[i])),
      portNumber := cfg.defaultPort,
      portStatus := portStatus,
      url := ServiceUrl(cfg, portStatus == Open))
  }

  /** A checked project runs exactly when its port is open and some listed process matches it. */
  lemma CheckedStatusRunning(id: string, cfg: ProjectConfig, portStatus: PortState, procs: seq<ProcessRecord>)
    ensures CheckedStatus(id, cfg, portStatus, procs).running <==>
      portStatus == Open && exists i :: 0 <= i < |procs| && Matches(procs[i], id, cfg, Open)
  {
    var matched := MatchedProcesses(procs, id, cfg, portStatus);
    if portStatus == Open && matched != [] {
      assert matched[0] in procs;
    }
  }

  /**
   * The status of a known project from one observation: a failed probe gives a
   * degraded status; otherwise the project runs exactly when some process
   * matches and the port is open.
   */
  function ComputeStatus(id: string, cfg: ProjectConfig, obs: Observation): (s: ProjectStatus)
    ensures s != NotChecked
    ensures s.ProbeFailed? <==> obs.port.Err? || obs.listing.Err?
    ensures s.IsRunning() ==> obs.port == Ok(Open) && obs.listing.Ok?
    ensures s.Checked? ==> (s.running <==> s.processes != [] && s.portStatus == Open)
    ensures s.Checked? ==> (s.pid.None? <==> s.processes == [])
    ensures s.Checked? && s.processes != [] ==> s.pid == Some(s.processes[0].pid)
    ensures s.Checked? ==> s.portNumber == cfg.defaultPort && (s.url.Some? <==> s.portStatus == Open)
    ensures obs.port.Err? ==> s == ProbeFailed(obs.port.error)
    ensures obs.port.Ok? && obs.listing.Err? ==> s == ProbeFailed(obs.listing.error)
    ensures obs.port.Ok? && obs.listing.Ok? ==> s == CheckedStatus(id, cfg, obs.port.value, ParseListing(obs.listing.value))
  {
    match obs.port
    case Err(e) => ProbeFailed(e)
    case Ok(portStatus) =>
      match obs.listing
      case Err(e) => ProbeFailed(e)
      case Ok(stdout) => CheckedStatus(id, cfg, portStatus, ParseListing(stdout))
  }

  /**
   * A project runs exactly when both probes answered, the port is open and
   * some process of the listing matches the project.
   */
  lemma ComputeStatusRunning(id: string, cfg: ProjectConfig, obs: Observation)
    ensures ComputeStatus(id, cfg, obs).IsRunning() <==>
      && obs.port == Ok(Open)
      && obs.listing.Ok?
      && exists i :: 0 <= i < |ParseListing(obs.listing.value)| && Matches(ParseListing(obs.listing.value)[i], id, cfg, Open)
  {
    if obs.port.Ok? && obs.listing.Ok? {
      CheckedStatusRunning(id, cfg, obs.port.value, ParseListing(obs.listing.value));
    }
  }

  /** The message of the error thrown for an id the configuration does not define. */
  function NotFoundMessage(id: string): string {
    "Proyecto " + id + " no encontrado"
  }

  /** `getProjectStatus(id)`: an unknown id throws before any probe; a known one never throws and gets the status its probes give. */
  function GetProjectStatus(configs: map<string, ProjectConfig>, id: string, obs: Observation): (r: Result<ProjectStatus, string>)
    ensures r.Err? <==> id !in configs
    ensures r.Err? ==> r.error == NotFoundMessage(id)
    ensures r.Ok? ==> r.value != NotChecked && (r.value.ProbeFailed? <==> obs.port.Err? || obs.listing.Err?)
    ensures r.Ok? ==> r.value == ComputeStatus(id, configs[id], obs)
  {
    if id !in configs then Err(NotFoundMessage(id)) else Ok(ComputeStatus(id, configs[id], obs))
  }

  /**
   * The URL follows the port, not the running flag: with the port open and a
   * listing that matches nothing, the status carries a URL and is not running.
   */
  lemma UrlWithoutRunning(id: string, cfg: ProjectConfig)
    ensures var s := ComputeStatus(id, cfg, Observation(Ok(Open), Ok("")));
      s.Checked? && !s.running && s.url.Some?
  {
    ParseListingOfOneLine("");
  }
}
