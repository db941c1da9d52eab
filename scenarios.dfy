/**
 * The class's documented behaviour, one lemma per scenario: each fixes the
 * switches of the scenario, compiles the class for a host and states what
 * the resulting catalogue contains. Every scenario holds for any value of
 * its string parameters (a version, a URI, a tool) and on every host whose
 * facts play no part in the lookup; the scenarios' own node
 * `rspec.example42.com` with the single fact `ipaddress => 10.42.42.42` is
 * such a host. The lookup scenarios fix the `monitor` facts as well.
 */
module Scenarios {
  import opened Wrappers
  import opened Values
  import opened Resolver
  import opened Lifecycle
  import opened Content
  import opened Plan

  /** The facts every scenario supplies unless it says otherwise. */
  const BaseFacts: Facts := map["ipaddress" := Str("10.42.42.42")]

  /** The host every scenario compiles for unless it says otherwise. */
  const Rspec: Host := Host("rspec.example42.com", BaseFacts)

  /** The configuration that no parameter and no relevant fact changes. */
  const Defaults: Config := Config(
    version := "present", absent := false, disable := false, disableboot := false, noops := false,
    monitor := false, monitorTool := None, firewall := false, firewallTool := None,
    puppi := false, puppiHelper := None, port := None, protocol := None,
    myClass := None, source := None, sourceDir := None, sourceDirPurge := false,
    template := None, options := map[], serviceAutorestart := true)

  /** Monitoring and firewalling on a port and protocol, the base of the decommissioning scenarios. */
  function Network(port: string, protocol: string): Params {
    NoParams.(monitor := Some(Bool(true)), firewall := Some(Bool(true)), port := Some(Str(port)), protocol := Some(Str(protocol)))
  }

  /** The facts of the four lookup scenarios. */
  const GlobalOnFacts: Facts := map["monitor" := Bool(true), "ipaddress" := Str("10.42.42.42")]
  const SpecificOnFacts: Facts := map["flyway_monitor" := Bool(true), "ipaddress" := Str("10.42.42.42")]
  const BothFacts: Facts :=
    map["monitor" := Bool(false), "flyway_monitor" := Bool(true), "ipaddress" := Str("10.42.42.42")]
  const GlobalOffFacts: Facts := map["monitor" := Bool(false), "ipaddress" := Str("10.42.42.42")]

  /** The suite's fact names, `ipaddress`, `monitor` and `flyway_monitor`, set only what they name. */
  lemma SuiteFactNames(p: Param)
    ensures GlobalFact(p) != "ipaddress" && SpecificFact(p) != "ipaddress"
    ensures GlobalFact(Monitor) == "monitor" && SpecificFact(Monitor) == "flyway_monitor"
    ensures p != Monitor ==> && GlobalFact(p) != "monitor" && SpecificFact(p) != "monitor"
                             && GlobalFact(p) != "flyway_monitor" && SpecificFact(p) != "flyway_monitor"
  {
    FactNamesDistinct(p, Monitor);
    FactNamesDistinct(Monitor, p);
    assert |SpecificFact(p)| == |Name(p)| + 7;
    assert Name(p) == SpecificFact(p)[7..];
    match p
    case Version => case Absent => case Disable => case Disableboot => case Noops =>
    case Monitor => case MonitorTool => case Firewall => case FirewallTool => case Puppi =>
    case PuppiHelper => case Port => case Protocol => case MyClass => case Source =>
    case SourceDir => case SourceDirPurge => case Template => case Options => case ServiceAutorestart =>
  }

  /** Port 42 over tcp gives the title `flyway_tcp_42`. */
  lemma SuiteNetworkTitle()
    ensures NetworkTitle("tcp", "42") == "flyway_tcp_42"
  {
  }

  /** The suite's own host, with the single fact `ipaddress`, names no parameter. */
  lemma SuiteHostUnrelated()
    ensures Unrelated(Rspec.facts)
  {
    forall p ensures Silent(BaseFacts, p) {
      SuiteFactNames(p);
    }
  }

  /** The facts of the first lookup scenario: `monitor => true` and nothing else of the class. */
  lemma GlobalOnFactsShape()
    ensures OnlyMonitor(GlobalOnFacts)
    ensures Get(GlobalOnFacts, GlobalFact(Monitor)) == Some(Bool(true)) && SpecificFact(Monitor) !in GlobalOnFacts
  {
    SuiteFactNames(Monitor);
    forall p | p != Monitor ensures Silent(GlobalOnFacts, p) {
      SuiteFactNames(p);
    }
  }

  /** The facts of the second lookup scenario: `flyway_monitor => true` and nothing else of the class. */
  lemma SpecificOnFactsShape()
    ensures OnlyMonitor(SpecificOnFacts)
    ensures Get(SpecificOnFacts, SpecificFact(Monitor)) == Some(Bool(true)) && GlobalFact(Monitor) !in SpecificOnFacts
  {
    SuiteFactNames(Monitor);
    forall p | p != Monitor ensures Silent(SpecificOnFacts, p) {
      SuiteFactNames(p);
    }
  }

  /** The facts of the third lookup scenario: `flyway_monitor => true` and `monitor => false`. */
  lemma BothFactsShape()
    ensures OnlyMonitor(BothFacts)
    ensures Get(BothFacts, SpecificFact(Monitor)) == Some(Bool(true))
    ensures Get(BothFacts, GlobalFact(Monitor)) == Some(Bool(false))
  {
    SuiteFactNames(Monitor);
    forall p | p != Monitor ensures Silent(BothFacts, p) {
      SuiteFactNames(p);
    }
  }

  /** The facts of the fourth lookup scenario: `monitor => false` and nothing else of the class. */
  lemma GlobalOffFactsShape()
    ensures OnlyMonitor(GlobalOffFacts)
    ensures Get(GlobalOffFacts, GlobalFact(Monitor)) == Some(Bool(false)) && SpecificFact(Monitor) !in GlobalOffFacts
  {
    SuiteFactNames(Monitor);
    forall p | p != Monitor ensures Silent(GlobalOffFacts, p) {
      SuiteFactNames(p);
    }
  }

  /** With no parameters and no relevant fact, every parameter takes its default. */
  lemma DefaultsResolved(facts: Facts)
    requires Unrelated(facts)
    ensures Resolve(NoParams, facts) == Defaults
  {
    SilentFactsIgnored(facts);
  }

  /** With no parameters: package present, service running and enabled, file present. */
  lemma StandardInstallation(h: Host)
    requires Unrelated(h.facts)
    ensures var p := Flyway(NoParams, h);
      && p.package.title == "flyway" && p.package.ensure == "present"
      && p.service.title == "flyway" && p.service.ensure == Some(Running) && p.service.enable
      && p.file.title == "flyway.conf" && p.file.ensure == Present
  {
    DefaultsResolved(h.facts);
  }

  /** The `version` parameter pins the package version. */
  lemma SpecificVersion(h: Host, version: string)
    requires Unrelated(h.facts)
    ensures var p := Flyway(NoParams.(version := Some(Str(version))), h);
      p.package.title == "flyway" && p.package.ensure == version
  {
    SilentFactsIgnored(h.facts);
  }

  /** Monitoring and firewalling add an enabled process monitor and an enabled firewall rule. */
  lemma MonitoringAndFirewalling(h: Host, port: string, protocol: string)
    requires Unrelated(h.facts)
    ensures var p := Flyway(Network(port, protocol), h);
      && p.package.title == "flyway" && p.service.title == "flyway"
      && p.package.ensure == "present"
      && p.service.ensure == Some(Running) && p.service.enable
      && p.file.title == "flyway.conf" && p.file.ensure == Present
      && p.process.Some? && p.process.value.title == "flyway_process" && p.process.value.enable
      && p.firewall.Some? && p.firewall.value.title == NetworkTitle(protocol, port) && p.firewall.value.enable
  {
    SilentFactsIgnored(h.facts);
  }

  /** `absent` removes the package and the file, stops the service and disables the integrations. */
  lemma DecommissionAbsent(h: Host, port: string, protocol: string)
    requires Unrelated(h.facts)
    ensures var p := Flyway(Network(port, protocol).(absent := Some(Bool(true))), h);
      && p.package.title == "flyway" && p.service.title == "flyway"
      && p.package.ensure == "absent"
      && p.service.ensure == Some(Stopped) && !p.service.enable
      && p.file.title == "flyway.conf" && p.file.ensure == Presence.Absent
      && p.process.Some? && p.process.value.title == "flyway_process" && !p.process.value.enable
      && p.firewall.Some? && p.firewall.value.title == NetworkTitle(protocol, port) && !p.firewall.value.enable
  {
    SilentFactsIgnored(h.facts);
  }

  /** `disable` keeps package and file, stops the service and disables the integrations. */
  lemma DecommissionDisable(h: Host, port: string, protocol: string)
    requires Unrelated(h.facts)
    ensures var p := Flyway(Network(port, protocol).(disable := Some(Bool(true))), h);
      && p.package.title == "flyway" && p.service.title == "flyway"
      && p.package.ensure == "present"
      && p.service.ensure == Some(Stopped) && !p.service.enable
      && p.file.title == "flyway.conf" && p.file.ensure == Present
      && p.process.Some? && p.process.value.title == "flyway_process" && !p.process.value.enable
      && p.firewall.Some? && p.firewall.value.title == NetworkTitle(protocol, port) && !p.firewall.value.enable
  {
    SilentFactsIgnored(h.facts);
  }

  /**
   * `disableboot` keeps package and file, asserts no run state for the service
   * and does not enable it at boot, disables the process monitor and keeps the
   * firewall rule enabled.
   */
  lemma DecommissionDisableboot(h: Host, port: string, protocol: string)
    requires Unrelated(h.facts)
    ensures var p := Flyway(Network(port, protocol).(disableboot := Some(Bool(true))), h);
      && p.package.title == "flyway" && p.service.title == "flyway"
      && p.package.ensure == "present"
      && p.service.ensure.None? && !p.service.enable
      && p.file.title == "flyway.conf" && p.file.ensure == Present
      && p.process.Some? && p.process.value.title == "flyway_process" && !p.process.value.enable
      && p.firewall.Some? && p.firewall.value.title == NetworkTitle(protocol, port) && p.firewall.value.enable
  {
    SilentFactsIgnored(h.facts);
  }

  /** `noops` marks every declared resource noop, the port monitor included. */
  lemma NoopsMode(h: Host, port: string, protocol: string)
    requires Unrelated(h.facts)
    ensures var p := Flyway(Network(port, protocol).(noops := Some(Bool(true))), h);
      && p.package.title == "flyway" && p.service.title == "flyway"
      && p.package.noop && p.service.noop && p.file.title == "flyway.conf" && p.file.noop
      && p.process.Some? && p.process.value.title == "flyway_process" && p.process.value.noop
      && p.port.Some? && p.port.value.title == NetworkTitle(protocol, port) && p.port.value.noop
      && p.firewall.Some? && p.firewall.value.title == NetworkTitle(protocol, port) && p.firewall.value.noop
  {
    SilentFactsIgnored(h.facts);
  }

  /** A custom template renders `flyway.conf` in a context holding the host's name and the options. */
  lemma CustomTemplate(h: Host, path: string, options: map<string, string>)
    requires Unrelated(h.facts)
    ensures var f := Flyway(NoParams.(template := Some(Str(path)), options := Some(Hash(options))), h).file;
      && f.title == "flyway.conf" && f.content.Some?
      && f.content.value.origin == FromTemplate(Some(path))
      && f.content.value.context == TemplateContext(h.fqdn, options)
  {
    SilentFactsIgnored(h.facts);
  }

  /** A `source` is copied to `flyway.conf`. */
  lemma CustomSource(h: Host, uri: string)
    requires Unrelated(h.facts)
    ensures var f := Flyway(NoParams.(source := Some(Str(uri))), h).file;
      f.title == "flyway.conf" && f.source == Some(uri)
  {
    SilentFactsIgnored(h.facts);
  }

  /** A `source_dir` with purge manages `flyway.dir`, purged and forced. */
  lemma CustomSourceDir(h: Host, uri: string)
    requires Unrelated(h.facts)
    ensures var f := Flyway(NoParams.(sourceDir := Some(Str(uri)), sourceDirPurge := Some(Bool(true))), h).file;
      && f.title == "flyway.dir" && f.source == Some(uri)
      && f.purge == Some(true) && f.force == Some(true)
  {
    SilentFactsIgnored(h.facts);
  }

  /** A custom class renders `flyway.conf` in a context holding the host's name. */
  lemma CustomClassContent(h: Host, name: string)
    requires Unrelated(h.facts)
    ensures var f := Flyway(NoParams.(myClass := Some(Str(name))), h).file;
      && f.title == "flyway.conf" && f.content.Some?
      && f.content.value.origin == FromClass(name)
      && f.content.value.context.fqdn == h.fqdn
  {
    SilentFactsIgnored(h.facts);
  }

  /** `service_autorestart => "no"` leaves the file without a notify. */
  lemma NoAutorestart(h: Host)
    requires Unrelated(h.facts)
    ensures var f := Flyway(NoParams.(serviceAutorestart := Some(Str("no"))), h).file;
      f.title == "flyway.conf" && f.notify.None?
  {
    SilentFactsIgnored(h.facts);
  }

  /** Puppi on declares the `flyway` hook with the given helper. */
  lemma PuppiIntegration(h: Host, helper: string)
    requires Unrelated(h.facts)
    ensures var p := Flyway(NoParams.(puppi := Some(Bool(true)), puppiHelper := Some(Str(helper))), h);
      p.puppi.Some? && p.puppi.value.title == "flyway" && p.puppi.value.helper == Some(helper)
  {
    SilentFactsIgnored(h.facts);
  }

  /** The monitoring tool reaches the process monitor. */
  lemma MonitoringToolIntegration(h: Host, tool: string)
    requires Unrelated(h.facts)
    ensures var p := Flyway(NoParams.(monitor := Some(Bool(true)), monitorTool := Some(Str(tool))), h);
      p.process.Some? && p.process.value.title == "flyway_process" && p.process.value.tool == Some(tool)
  {
    SilentFactsIgnored(h.facts);
  }

  /** Firewalling on a port and protocol with a tool. */
  function FirewallToolParams(port: string, protocol: string, tool: string): Params {
    NoParams.(firewall := Some(Bool(true)), firewallTool := Some(Str(tool)), protocol := Some(Str(protocol)), port := Some(Str(port)))
  }

  /** The firewall tool reaches the rule `flyway_<protocol>_<port>`. */
  lemma FirewallToolIntegration(h: Host, port: string, protocol: string, tool: string)
    requires Unrelated(h.facts)
    ensures var p := Flyway(FirewallToolParams(port, protocol, tool), h);
      p.firewall.Some? && p.firewall.value.title == NetworkTitle(protocol, port) && p.firewall.value.tool == Some(tool)
  {
    SilentFactsIgnored(h.facts);
  }

  /** Old-style "yes" switches for monitoring, firewalling and puppi, with their tools. */
  function OldGen(port: string, protocol: string, monitorTool: string, firewallTool: string): Params {
    Network(port, protocol).(monitor := Some(Str("yes")), monitorTool := Some(Str(monitorTool)), firewall := Some(Str("yes")),
                             firewallTool := Some(Str(firewallTool)), puppi := Some(Str("yes")))
  }

  /** Old-style "yes" switches work like `true`: tools reach their resources and the hook is present. */
  lemma OldGenIntegration(h: Host, port: string, protocol: string, monitorTool: string, firewallTool: string)
    requires Unrelated(h.facts)
    ensures var p := Flyway(OldGen(port, protocol, monitorTool, firewallTool), h);
      && p.process.Some? && p.process.value.title == "flyway_process" && p.process.value.tool == Some(monitorTool)
      && p.firewall.Some? && p.firewall.value.title == NetworkTitle(protocol, port) && p.firewall.value.tool == Some(firewallTool)
      && p.puppi.Some? && p.puppi.value.title == "flyway" && p.puppi.value.ensure == Present
  {
    SilentFactsIgnored(h.facts);
  }

  /** The global fact `monitor => true` turns monitoring on. */
  lemma LookupGlobalFact(h: Host, port: string)
    requires OnlyMonitor(h.facts)
    requires Get(h.facts, GlobalFact(Monitor)) == Some(Bool(true)) && SpecificFact(Monitor) !in h.facts
    ensures var p := Flyway(NoParams.(port := Some(Str(port))), h);
      p.process.Some? && p.process.value.title == "flyway_process" && p.process.value.enable
  {
    MonitorFactsIgnored(h.facts);
  }

  /** The unit-specific fact `flyway_monitor => true` turns monitoring on. */
  lemma LookupModuleFact(h: Host, port: string)
    requires OnlyMonitor(h.facts)
    requires Get(h.facts, SpecificFact(Monitor)) == Some(Bool(true)) && GlobalFact(Monitor) !in h.facts
    ensures var p := Flyway(NoParams.(port := Some(Str(port))), h);
      p.process.Some? && p.process.value.title == "flyway_process" && p.process.value.enable
  {
    MonitorFactsIgnored(h.facts);
  }

  /** `flyway_monitor => true` wins over `monitor => false`. */
  lemma LookupModuleOverGlobal(h: Host, port: string)
    requires OnlyMonitor(h.facts)
    requires Get(h.facts, SpecificFact(Monitor)) == Some(Bool(true)) && Get(h.facts, GlobalFact(Monitor)) == Some(Bool(false))
    ensures var p := Flyway(NoParams.(port := Some(Str(port))), h);
      p.process.Some? && p.process.value.title == "flyway_process" && p.process.value.enable
  {
    MonitorFactsIgnored(h.facts);
  }

  /** An explicit `monitor => true` wins over the fact `monitor => false`. */
  lemma LookupParamOverGlobal(h: Host, port: string)
    requires OnlyMonitor(h.facts)
    requires Get(h.facts, GlobalFact(Monitor)) == Some(Bool(false)) && SpecificFact(Monitor) !in h.facts
    ensures var p := Flyway(NoParams.(port := Some(Str(port)), monitor := Some(Bool(true)), firewall := Some(Bool(true))), h);
      p.process.Some? && p.process.value.title == "flyway_process" && p.process.value.enable
  {
    MonitorFactsIgnored(h.facts);
  }
}
