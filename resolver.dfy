/**
 * The parameter resolver: every class parameter is looked up, independently,
 * in the explicit call-site parameters, then in the unit-specific host fact
 * `flyway_<name>`, then in the global host fact `<name>`, and falls back to
 * the built-in default when none of the three defines it.
 */
module Resolver {
  import opened Wrappers
  import opened Values

  /** The name of the managed unit; it prefixes unit-specific facts and resource titles. */
  const Unit: string := "flyway"

  /** The parameters of the class. */
  datatype Param =
    | Version | Absent | Disable | Disableboot | Noops
    | Monitor | MonitorTool | Firewall | FirewallTool | Puppi | PuppiHelper
    | Port | Protocol
    | MyClass | Source | SourceDir | SourceDirPurge | Template | Options
    | ServiceAutorestart

  /** The name a parameter has in the class's signature. */
  function Name(p: Param): string {
    match p
    case Version => "version"
    case Absent => "absent"
    case Disable => "disable"
    case Disableboot => "disableboot"
    case Noops => "noops"
    case Monitor => "monitor"
    case MonitorTool => "monitor_tool"
    case Firewall => "firewall"
    case FirewallTool => "firewall_tool"
    case Puppi => "puppi"
    case PuppiHelper => "puppi_helper"
    case Port => "port"
    case Protocol => "protocol"
    case MyClass => "my_class"
    case Source => "source"
    case SourceDir => "source_dir"
    case SourceDirPurge => "source_dir_purge"
    case Template => "template"
    case Options => "options"
    case ServiceAutorestart => "service_autorestart"
  }

  /** The name of the global fact that may set parameter `p`: the parameter's own name. */
  function GlobalFact(p: Param): string {
    Name(p)
  }

  /** The name of the unit-specific fact that may set parameter `p`: `flyway_<name>`. */
  function SpecificFact(p: Param): string {
    Unit + "_" + Name(p)
  }

  /** No parameter name has an `l` as its second letter. */
  lemma NameShape(p: Param)
    ensures |Name(p)| >= 2 && Name(p)[1] != 'l'
  {
    match p
    case Version => case Absent => case Disable => case Disableboot => case Noops =>
    case Monitor => case MonitorTool => case Firewall => case FirewallTool => case Puppi =>
    case PuppiHelper => case Port => case Protocol => case MyClass => case Source =>
    case SourceDir => case SourceDirPurge => case Template => case Options => case ServiceAutorestart =>
  }

  /** No unit-specific fact shares its name with a global fact, whatever the parameters. */
  lemma FactNamesDistinct(p: Param, q: Param)
    ensures SpecificFact(p) != GlobalFact(q)
  {
    NameShape(q);
    assert SpecificFact(p)[1] == 'l';
  }

  /**
   * The explicit call-site parameters, one slot per parameter of the class;
   * `None` when the caller does not pass it.
   */
  datatype Params = Params(
    version: Option<Value>,
    absent: Option<Value>,
    disable: Option<Value>,
    disableboot: Option<Value>,
    noops: Option<Value>,
    monitor: Option<Value>,
    monitorTool: Option<Value>,
    firewall: Option<Value>,
    firewallTool: Option<Value>,
    puppi: Option<Value>,
    puppiHelper: Option<Value>,
    port: Option<Value>,
    protocol: Option<Value>,
    myClass: Option<Value>,
    source: Option<Value>,
    sourceDir: Option<Value>,
    sourceDirPurge: Option<Value>,
    template: Option<Value>,
    options: Option<Value>,
    serviceAutorestart: Option<Value>
  )

  /** No parameter passed. */
  const NoParams: Params := Params(None, None, None, None, None, None, None, None, None, None, None, None, None, None, None, None, None, None, None, None)

  /** The host facts, by name. */
  type Facts = map<string, Value>

  /** The value a scope gives a key, if any. */
  function Get<K>(m: map<K, Value>, k: K): Option<Value> {
    if k in m then Some(m[k]) else None
  }

  /** Entry `i` of the chain is defined and no earlier entry is. */
  ghost predicate Wins(chain: seq<Option<Value>>, i: int)
    requires 0 <= i < |chain|
  {
    && chain[i].Some?
    && forall j :: 0 <= j < i ==> chain[j].None?
  }

  /** The first defined value of a chain of lookups tried in order. */
  function FirstPresent(chain: seq<Option<Value>>): (r: Option<Value>)
    ensures r.None? <==> forall i :: 0 <= i < |chain| ==> chain[i].None?
    ensures r.Some? ==> exists i :: 0 <= i < |chain| && Wins(chain, i) && r == chain[i]
  {
    if |chain| == 0 then None
    else if chain[0].Some? then
      assert Wins(chain, 0);
      chain[0]
    else
      var rest := FirstPresent(chain[1..]);
      assert forall i :: 1 <= i < |chain| ==> chain[i] == chain[1..][i - 1];
      assert forall k :: 0 <= k < |chain| - 1 && Wins(chain[1..], k) ==> Wins(chain, k + 1);
      rest
  }

  /** The lookup order for parameter `p` passed as `given`, highest precedence first. */
  function Chain(p: Param, given: Option<Value>, facts: Facts): seq<Option<Value>> {
    [given, Get(facts, SpecificFact(p)), Get(facts, GlobalFact(p))]
  }

  /**
   * The value of parameter `p`, passed as `given` at the call site: the
   * explicit parameter if given, else the unit-specific fact, else the
   * global fact; undefined when none is set.
   */
  function Lookup(p: Param, given: Option<Value>, facts: Facts): Option<Value> {
    if given.Some? then given
    else if SpecificFact(p) in facts then Some(facts[SpecificFact(p)])
    else Get(facts, GlobalFact(p))
  }

  /**
   * The lookup is the first defined entry of the chain explicit parameter,
   * unit-specific fact, global fact: a source is consulted only when every
   * source above it is silent, whatever the values are (a `false` global
   * fact does not hide a `true` unit-specific one).
   */
  lemma LookupIsFirstPresent(p: Param, given: Option<Value>, facts: Facts)
    ensures Lookup(p, given, facts) == FirstPresent(Chain(p, given, facts))
  {
    var chain := Chain(p, given, facts);
    var second := chain[1..];
    assert second == [Get(facts, SpecificFact(p)), Get(facts, GlobalFact(p))];
    assert second[1..] == [Get(facts, GlobalFact(p))];
    assert second[1..][1..] == [];
    assert given.None? ==> FirstPresent(chain) == FirstPresent(second);
    assert SpecificFact(p) !in facts ==> FirstPresent(second) == FirstPresent(second[1..]);
    assert GlobalFact(p) !in facts ==> FirstPresent(second[1..]) == FirstPresent(second[1..][1..]);
  }

  /** Explicit parameter over unit-specific fact over global fact over the default. */
  lemma LookupPrecedence(p: Param, given: Option<Value>, facts: Facts)
    ensures given.Some? ==> Lookup(p, given, facts) == given
    ensures given.None? && SpecificFact(p) in facts ==> Lookup(p, given, facts) == Some(facts[SpecificFact(p)])
    ensures given.None? && SpecificFact(p) !in facts && GlobalFact(p) in facts ==>
      Lookup(p, given, facts) == Some(facts[GlobalFact(p)])
    ensures Lookup(p, given, facts).None? <==> given.None? && SpecificFact(p) !in facts && GlobalFact(p) !in facts
  {
  }

  /** A boolean-like parameter, normalised, with its default when undefined. */
  function AsBool(v: Option<Value>, default: bool): bool {
    match v
    case Some(x) => ToBool(x)
    case None => default
  }

  /** A string parameter without a default. */
  function AsText(v: Option<Value>): Option<string> {
    match v
    case Some(x) => ToText(x)
    case None => None
  }

  /** A string parameter with a default. */
  function AsTextOr(v: Option<Value>, default: string): string {
    match AsText(v)
    case Some(s) => s
    case None => default
  }

  /** A hash parameter; the empty hash when undefined. */
  function AsHash(v: Option<Value>): map<string, string> {
    match v
    case Some(x) => ToHash(x)
    case None => map[]
  }

  /** The fully resolved configuration of one run of the class. */
  datatype Config = Config(
    version: string,
    absent: bool,
    disable: bool,
    disableboot: bool,
    noops: bool,
    monitor: bool,
    monitorTool: Option<string>,
    firewall: bool,
    firewallTool: Option<string>,
    puppi: bool,
    puppiHelper: Option<string>,
    port: Option<string>,
    protocol: Option<string>,
    myClass: Option<string>,
    source: Option<string>,
    sourceDir: Option<string>,
    sourceDirPurge: bool,
    template: Option<string>,
    options: map<string, string>,
    serviceAutorestart: bool
  )

  /** The package ensure used when no version is requested. */
  const DefaultVersion: string := "present"

  /** Resolves every parameter of the class, with its default. */
  function Resolve(params: Params, facts: Facts): Config {
    Config(
      version := AsTextOr(Lookup(Version, params.version, facts), DefaultVersion),
      absent := AsBool(Lookup(Absent, params.absent, facts), false),
      disable := AsBool(Lookup(Disable, params.disable, facts), false),
      disableboot := AsBool(Lookup(Disableboot, params.disableboot, facts), false),
      noops := AsBool(Lookup(Noops, params.noops, facts), false),
      monitor := AsBool(Lookup(Monitor, params.monitor, facts), false),
      monitorTool := AsText(Lookup(MonitorTool, params.monitorTool, facts)),
      firewall := AsBool(Lookup(Firewall, params.firewall, facts), false),
      firewallTool := AsText(Lookup(FirewallTool, params.firewallTool, facts)),
      puppi := AsBool(Lookup(Puppi, params.puppi, facts), false),
      puppiHelper := AsText(Lookup(PuppiHelper, params.puppiHelper, facts)),
      port := AsText(Lookup(Port, params.port, facts)),
      protocol := AsText(Lookup(Protocol, params.protocol, facts)),
      myClass := AsText(Lookup(MyClass, params.myClass, facts)),
      source := AsText(Lookup(Source, params.source, facts)),
      sourceDir := AsText(Lookup(SourceDir, params.sourceDir, facts)),
      sourceDirPurge := AsBool(Lookup(SourceDirPurge, params.sourceDirPurge, facts), false),
      template := AsText(Lookup(Template, params.template, facts)),
      options := AsHash(Lookup(Options, params.options, facts)),
      serviceAutorestart := AsBool(Lookup(ServiceAutorestart, params.serviceAutorestart, facts), true)
    )
  }

  /** The host has no fact named after parameter `p`, global or unit-specific. */
  predicate Silent(facts: Facts, p: Param) {
    GlobalFact(p) !in facts && SpecificFact(p) !in facts
  }

  /** No fact of the host names a parameter of the class. */
  predicate Unrelated(facts: Facts) {
    forall p :: Silent(facts, p)
  }

  /** No fact of the host names a parameter of the class other than `monitor`. */
  predicate OnlyMonitor(facts: Facts) {
    forall p :: p != Monitor ==> Silent(facts, p)
  }

  /** A fact that names no parameter (such as `ipaddress`) never answers a lookup. */
  lemma SilentFactsIgnored(facts: Facts)
    requires Unrelated(facts)
    ensures forall p, given :: Lookup(p, given, facts) == given
  {
    forall p, given ensures Lookup(p, given, facts) == given {
      assert Silent(facts, p);
    }
  }

  /** Facts that name no parameter play no part in the resolution. */
  lemma UnrelatedFactsIgnored(params: Params, facts: Facts)
    requires Unrelated(facts)
    ensures Resolve(params, facts) == Resolve(params, map[])
  {
    SilentFactsIgnored(facts);
    SilentFactsIgnored(map[]);
  }

  /** Facts that name only `monitor` answer no other lookup. */
  lemma MonitorFactsIgnored(facts: Facts)
    requires OnlyMonitor(facts)
    ensures forall p, given :: p != Monitor ==> Lookup(p, given, facts) == given
  {
    forall p, given | p != Monitor ensures Lookup(p, given, facts) == given {
      assert Silent(facts, p);
    }
  }

  /**
   * Facts that name only `monitor` act as if the monitoring switch they
   * resolve to had been passed as a parameter on a host without facts.
   */
  lemma OnlyMonitorFacts(params: Params, facts: Facts)
    requires OnlyMonitor(facts)
    ensures Resolve(params, facts) == Resolve(params.(monitor := Lookup(Monitor, params.monitor, facts)), map[])
  {
    MonitorFactsIgnored(facts);
    SilentFactsIgnored(map[]);
  }

  /**
   * The monitoring switch: an explicit `monitor` parameter, else the fact
   * `flyway_monitor`, else the fact `monitor`, normalised; off by default.
   */
  lemma MonitorPrecedence(params: Params, facts: Facts)
    ensures params.monitor.Some? ==> Resolve(params, facts).monitor == ToBool(params.monitor.value)
    ensures params.monitor.None? && SpecificFact(Monitor) in facts ==>
      Resolve(params, facts).monitor == ToBool(facts[SpecificFact(Monitor)])
    ensures params.monitor.None? && SpecificFact(Monitor) !in facts && GlobalFact(Monitor) in facts ==>
      Resolve(params, facts).monitor == ToBool(facts[GlobalFact(Monitor)])
    ensures params.monitor.None? && Silent(facts, Monitor) ==> !Resolve(params, facts).monitor
  {
  }
}
