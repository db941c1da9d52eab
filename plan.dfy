/**
 * The resource plan builder: from the resolved configuration it declares the
 * package, the configuration file and the service, and, when asked for, the
 * process and port monitors, the firewall rule and the puppi integration,
 * every one carrying the class's `noops` flag.
 */
module Plan {
  import opened Wrappers
  import opened Values
  import opened Resolver
  import opened Lifecycle
  import opened Content

  /** `package { 'flyway': ensure => ..., noop => ... }`; ensure is a version, "present" or "absent". */
  datatype PackageRes = PackageRes(title: string, ensure: string, noop: bool)

  /** `service { 'flyway': ... }`; an undefined ensure leaves the run state alone. */
  datatype ServiceRes = ServiceRes(title: string, ensure: Option<RunState>, enable: bool, noop: bool)

  /** A reference to another resource, as in `notify => Service['flyway']`. */
  datatype Ref = ServiceRef(title: string)

  /** The managed configuration file (`flyway.conf`) or directory (`flyway.dir`). */
  datatype FileRes = FileRes(
    title: string,
    ensure: Presence,
    source: Option<string>,
    content: Option<Rendering>,
    purge: Option<bool>,
    force: Option<bool>,
    notify: Option<Ref>,
    noop: bool
  )

  /** A `monitor::process` or `monitor::port` declaration. */
  datatype MonitorRes = MonitorRes(title: string, tool: Option<string>, enable: bool, noop: bool)

  /** A `firewall` rule declaration. */
  datatype FirewallRes = FirewallRes(title: string, tool: Option<string>, enable: bool, noop: bool)

  /** A `puppi::ze` integration hook. */
  datatype PuppiRes = PuppiRes(title: string, ensure: Presence, helper: Option<string>, noop: bool)

  /** The catalogue the class declares; the optional resources are present or not. */
  datatype Plan = Plan(
    package: PackageRes,
    file: FileRes,
    service: ServiceRes,
    process: Option<MonitorRes>,
    port: Option<MonitorRes>,
    firewall: Option<FirewallRes>,
    puppi: Option<PuppiRes>
  )

  /** The host the class is compiled for: its fully qualified name and its facts. */
  datatype Host = Host(fqdn: string, facts: Facts)

  /** Every resource of the plan has noop flag `b`. */
  predicate AllNoop(p: Plan, b: bool) {
    && p.package.noop == b && p.file.noop == b && p.service.noop == b
    && (p.process.Some? ==> p.process.value.noop == b)
    && (p.port.Some? ==> p.port.value.noop == b)
    && (p.firewall.Some? ==> p.firewall.value.noop == b)
    && (p.puppi.Some? ==> p.puppi.value.noop == b)
  }

  /** A plan with every resource's noop flag set to `b`, and nothing else changed. */
  function SetNoop(p: Plan, b: bool): Plan {
    Plan(
      p.package.(noop := b),
      p.file.(noop := b),
      p.service.(noop := b),
      if p.process.Some? then Some(p.process.value.(noop := b)) else None,
      if p.port.Some? then Some(p.port.value.(noop := b)) else None,
      if p.firewall.Some? then Some(p.firewall.value.(noop := b)) else None,
      if p.puppi.Some? then Some(p.puppi.value.(noop := b)) else None
    )
  }

  /** The title of the process monitor. */
  const ProcessTitle: string := "flyway_process"

  /** The title of the configuration file and of the configuration directory. */
  const ConfTitle: string := "flyway.conf"
  const DirTitle: string := "flyway.dir"

  /** The title shared by the port monitor and the firewall rule: `flyway_<protocol>_<port>`. */
  function NetworkTitle(protocol: string, port: string): string {
    Unit + "_" + protocol + "_" + port
  }

  /** The managed file, from the content source in force and the file's target presence. */
  function ConfigFile(cfg: Config, ensure: Presence, fqdn: string): FileRes {
    var notify := if cfg.serviceAutorestart then Some(ServiceRef(Unit)) else None;
    var ctx := TemplateContext(fqdn, cfg.options);
    match ResolveContent(cfg)
    case ByClass(name) =>
      FileRes(ConfTitle, ensure, None, Some(Rendering(FromClass(name), ctx)), None, None, notify, cfg.noops)
    case BySource(uri) =>
      FileRes(ConfTitle, ensure, Some(uri), None, None, None, notify, cfg.noops)
    case ByDir(uri, purge) =>
      FileRes(DirTitle, ensure, Some(uri), None, Some(purge), Some(purge), notify, cfg.noops)
    case ByTemplate(path) =>
      FileRes(ConfTitle, ensure, None, Some(Rendering(FromTemplate(path), ctx)), None, None, notify, cfg.noops)
  }

  /** The `flyway_<protocol>_<port>` title, when both port and protocol are resolved. */
  function NetworkName(cfg: Config): Option<string> {
    if cfg.port.Some? && cfg.protocol.Some? then Some(NetworkTitle(cfg.protocol.value, cfg.port.value)) else None
  }

  /** The process monitor, declared when monitoring is on. */
  function ProcessMonitor(cfg: Config, t: Targets): Option<MonitorRes> {
    if cfg.monitor then Some(MonitorRes(ProcessTitle, cfg.monitorTool, t.monitorEnable, cfg.noops)) else None
  }

  /** The port monitor, declared when monitoring is on and port and protocol are resolved. */
  function PortMonitor(cfg: Config, t: Targets): Option<MonitorRes> {
    var net := NetworkName(cfg);
    if cfg.monitor && net.Some? then Some(MonitorRes(net.value, cfg.monitorTool, t.monitorEnable, cfg.noops)) else None
  }

  /** The firewall rule, declared when the firewall is on and port and protocol are resolved. */
  function FirewallRule(cfg: Config, t: Targets): Option<FirewallRes> {
    var net := NetworkName(cfg);
    if cfg.firewall && net.Some? then Some(FirewallRes(net.value, cfg.firewallTool, t.firewallEnable, cfg.noops)) else None
  }

  /** The puppi hook, declared when puppi is on; it is present exactly when the file is. */
  function PuppiHook(cfg: Config, t: Targets): Option<PuppiRes> {
    if cfg.puppi then Some(PuppiRes(Unit, t.file, cfg.puppiHelper, cfg.noops)) else None
  }

  /**
   * The plan of one run. The package and the service are titled `flyway`,
   * the file `flyway.dir` when a directory source is in force and
   * `flyway.conf` otherwise. Every declared resource carries `noops`; the
   * process monitor is declared exactly when monitoring is on, the puppi hook
   * exactly when puppi is on, and the firewall rule only when the firewall is on.
   */
  function BuildPlan(cfg: Config, fqdn: string): (r: Plan)
    ensures r.package.title == Unit && r.service.title == Unit
    ensures r.file.title == (if ResolveContent(cfg).ByDir? then DirTitle else ConfTitle)
    ensures AllNoop(r, cfg.noops)
    ensures r.process.Some? <==> cfg.monitor
    ensures r.puppi.Some? <==> cfg.puppi
    ensures !cfg.firewall ==> r.firewall.None?
    ensures r.port.Some? ==> cfg.monitor
  {
    var t := TargetsOf(Decide(cfg.absent, cfg.disable, cfg.disableboot));
    Plan(
      PackageRes(Unit, if t.removePackage then "absent" else cfg.version, cfg.noops),
      ConfigFile(cfg, t.file, fqdn),
      ServiceRes(Unit, t.run, t.enable, cfg.noops),
      ProcessMonitor(cfg, t),
      PortMonitor(cfg, t),
      FirewallRule(cfg, t),
      PuppiHook(cfg, t)
    )
  }

  /** The whole class: resolve the parameters on this host, then build the plan. */
  function Flyway(params: Params, host: Host): Plan {
    BuildPlan(Resolve(params, host.facts), host.fqdn)
  }

  /** The noop flag of the file is the only thing `noops` changes about it. */
  lemma ConfigFileNoop(cfg: Config, ensure: Presence, fqdn: string)
    ensures ConfigFile(cfg, ensure, fqdn) == ConfigFile(cfg.(noops := false), ensure, fqdn).(noop := cfg.noops)
  {
    assert ResolveContent(cfg.(noops := false)) == ResolveContent(cfg);
  }

  /** `noops` changes no desired state: the plan is the non-noop plan with noop set everywhere. */
  lemma NoopOnlySetsNoop(cfg: Config, fqdn: string)
    ensures BuildPlan(cfg, fqdn) == SetNoop(BuildPlan(cfg.(noops := false), fqdn), cfg.noops)
  {
    var c0 := cfg.(noops := false);
    var t := TargetsOf(Decide(cfg.absent, cfg.disable, cfg.disableboot));
    ConfigFileNoop(cfg, t.file, fqdn);
    assert NetworkName(c0) == NetworkName(cfg);
  }

  /**
   * The plan follows the lifecycle flags: the package is removed under
   * `absent` and otherwise pinned to `version`; the service, the file, the
   * process monitor and the firewall rule take the states of the table.
   */
  lemma PlanFollowsLifecycle(cfg: Config, fqdn: string)
    ensures var p := BuildPlan(cfg, fqdn);
      var none := !cfg.absent && !cfg.disable && !cfg.disableboot;
      && p.package.ensure == (if cfg.absent then "absent" else cfg.version)
      && (p.file.ensure == Presence.Absent <==> cfg.absent)
      && (p.service.enable <==> none)
      && (p.service.ensure == Some(Running) <==> none)
      && (p.service.ensure == Some(Stopped) <==> cfg.absent || (cfg.disable && !cfg.disableboot))
      && (p.service.ensure == None <==> !cfg.absent && cfg.disableboot)
      && (p.process.Some? ==> (p.process.value.enable <==> none))
      && (p.firewall.Some? ==> (p.firewall.value.enable <==> !cfg.absent && (cfg.disableboot || !cfg.disable)))
  {
    LifecycleTable(cfg.absent, cfg.disable, cfg.disableboot);
  }

  /**
   * Titles and tools: the process monitor is `flyway_process`; with port and
   * protocol resolved, a firewall that is on declares `flyway_<protocol>_<port>`;
   * the monitoring tool, firewall tool and puppi helper are copied verbatim,
   * and the puppi hook is present exactly when the file is.
   */
  lemma IntegrationsAttached(cfg: Config, fqdn: string)
    ensures var p := BuildPlan(cfg, fqdn);
      && (p.process.Some? ==> p.process.value.title == ProcessTitle && p.process.value.tool == cfg.monitorTool)
      && (cfg.firewall && cfg.port.Some? && cfg.protocol.Some? ==>
            p.firewall.Some? && p.firewall.value.title == NetworkTitle(cfg.protocol.value, cfg.port.value))
      && (p.firewall.Some? ==> p.firewall.value.tool == cfg.firewallTool)
      && (p.port.Some? ==> p.port.value.tool == cfg.monitorTool)
      && (p.port.Some? && p.firewall.Some? ==> p.port.value.title == p.firewall.value.title)
      && (p.puppi.Some? ==> p.puppi.value.title == Unit && p.puppi.value.helper == cfg.puppiHelper && p.puppi.value.ensure == p.file.ensure)
  {
  }

  /** The file notifies the service exactly when `service_autorestart` is on. */
  lemma RestartLink(cfg: Config, fqdn: string)
    ensures var f := BuildPlan(cfg, fqdn).file;
      (f.notify.Some? <==> cfg.serviceAutorestart) && (f.notify.Some? ==> f.notify.value == ServiceRef("flyway"))
  {
  }

  /**
   * The file follows the content source in force: a file source is copied to
   * `flyway.conf`, a directory source manages `flyway.dir` with force equal to
   * purge, and a template or custom class renders `flyway.conf` in a context
   * holding the host's name and the `options` hash.
   */
  lemma FileFollowsContent(cfg: Config, fqdn: string)
    ensures var f := BuildPlan(cfg, fqdn).file;
      match ResolveContent(cfg)
      case BySource(uri) => f.title == "flyway.conf" && f.source == Some(uri) && f.content.None?
      case ByDir(uri, purge) =>
        f.title == "flyway.dir" && f.source == Some(uri) && f.purge == Some(purge) && f.force == f.purge
      case ByClass(name) =>
        f.title == "flyway.conf" && f.source.None? && f.content == Some(Rendering(FromClass(name), TemplateContext(fqdn, cfg.options)))
      case ByTemplate(path) =>
        f.title == "flyway.conf" && f.source.None? && f.content == Some(Rendering(FromTemplate(path), TemplateContext(fqdn, cfg.options)))
  {
  }
}
