# flyway Puppet class — a Dafny model

The `flyway` Puppet class installs and runs the Flyway database-migration
tool on a node. The class declares a package, a configuration file
(`flyway.conf`) and a service, all named `flyway`. On request it also
declares:

- a process monitor, `monitor::process { 'flyway_process': }`;
- a port monitor, `monitor::port`, and a firewall rule, `firewall`, both titled
  `flyway_<protocol>_<port>`;
- a puppi integration hook, `puppi::ze { 'flyway': }`.

This project models the decisions the class makes, as pure functions with lemmas
about them:

- **Parameter resolution** (`Resolver`). Each parameter is looked up in three
  places, in this order:
  1. the explicit call-site parameter;
  2. the unit-specific host fact `flyway_<name>`;
  3. the global host fact `<name>`.

  If none of them is set, the parameter takes its built-in default. The boolean
  switches also accept the words `"yes"`/`"true"` and `"no"`/`"false"` (`Values`).
- **Lifecycle** (`Lifecycle`). The flags `absent`, `disable` and `disableboot`
  select one of four dispositions:
  - active: installed, running, enabled at boot;
  - boot-disabled: the run state is left alone and the unit is not enabled at boot;
  - disabled: stopped;
  - removed.

  Each disposition fixes the target state of every resource and the enable flag
  of the monitoring and firewall resources.
- **Content source** (`Content`). The configuration file is filled from one
  source, taken in this order of precedence:
  1. a custom class (`my_class`);
  2. a file `source`;
  3. a `source_dir` directory, whose `source_dir_purge` also sets `force`;
  4. a template rendered with the node's name and the `options` hash.

  The file notifies the service only when `service_autorestart` is on.
- **The plan** (`Plan`). `BuildPlan` turns the resolved configuration into the
  catalogue. `Flyway` runs the whole class for a host: resolve, then build.
  `noops` marks every declared resource `noop` and changes nothing else.
- **The documented scenarios** (`Scenarios`). There is one lemma per scenario of
  the class's test suite. Each is stated for any value of the scenario's string
  parameters (the version, a URI, a tool, a port) and for every host whose facts
  name no parameter of the class. Host facts are keyed by name. A parameter
  `<name>` is set only by the facts `flyway_<name>` and `<name>`, and no two
  of those names coincide. The `Suite*` and `*FactsShape` lemmas show that the
  suite's own host meets these requirements: `rspec.example42.com` with the
  single fact `ipaddress => 10.42.42.42`. They show the same for its four
  lookup fact sets. They also show that port 42 over tcp gives the title
  `flyway_tcp_42`.

The files are `wrappers.dfy` (the `Option` datatype), `values.dfy`,
`resolver.dfy`, `lifecycle.dfy`, `content.dfy`, `plan.dfy` and
`scenarios.dfy`. Verify them together.

## Model

| member | source | states |
|---|---|---|
| Values.ToBool | spec/classes/standard42_spec.rb:125-130 | a real boolean stands for itself; the strings "true"/"yes" read as true and "false"/"no" as false |
| Values.YesNoNormalised | spec/classes/standard42_spec.rb:102-108 | "yes" and "no" are interchangeable with `true` and `false` and with the strings "true" and "false" |
| Resolver.FirstPresent | spec/classes/standard42_spec.rb:132-154 | the first defined entry of a lookup chain: undefined exactly when every entry is; otherwise some entry is defined, every entry before it is undefined, and the result is that entry |
| Resolver.LookupIsFirstPresent | spec/classes/standard42_spec.rb:132-154 | resolving a parameter gives the first defined value of the chain explicit parameter, `flyway_<name>` fact, `<name>` fact, so a lower source is consulted only when every higher one is silent |
| Resolver.FactNamesDistinct | spec/classes/standard42_spec.rb:144-148 | no unit-specific fact `flyway_<name>` has the name of a global fact `<name>`, so the two sources of a parameter can always be told apart |
| Resolver.Lookup | spec/classes/standard42_spec.rb:132-154 | no contract of its own; `Resolver.LookupIsFirstPresent` and `Resolver.LookupPrecedence` state its precedence |
| Resolver.LookupPrecedence | spec/classes/standard42_spec.rb:132-154 | an explicit parameter wins; otherwise the unit-specific fact; otherwise the global fact; a parameter is undefined exactly when none of the three is set |
| Resolver.Resolve | spec/classes/standard42_spec.rb:9-154 | no contract of its own; `Resolver.MonitorPrecedence`, `Resolver.UnrelatedFactsIgnored`, `Resolver.OnlyMonitorFacts` and `Scenarios.DefaultsResolved` state what it yields |
| Resolver.SilentFactsIgnored | spec/classes/standard42_spec.rb:7 | on a host whose facts name no parameter (such as `ipaddress`), every parameter resolves to what the caller passed |
| Resolver.UnrelatedFactsIgnored | spec/classes/standard42_spec.rb:7 | such facts leave the whole resolved configuration as on a host without facts |
| Resolver.MonitorFactsIgnored | spec/classes/standard42_spec.rb:132-148 | facts that name only `monitor` answer no lookup of another parameter |
| Resolver.OnlyMonitorFacts | spec/classes/standard42_spec.rb:132-154 | facts that name only `monitor` resolve the configuration exactly as if the monitoring value they yield had been passed explicitly on a host without facts |
| Resolver.MonitorPrecedence | spec/classes/standard42_spec.rb:132-154 | the monitoring switch is the normalised explicit `monitor`, else the normalised `flyway_monitor` fact, else the normalised `monitor` fact; it is off when none is set |
| Lifecycle.Decide | spec/classes/standard42_spec.rb:31-60 | no contract of its own; `Lifecycle.LifecycleTable` states the targets the flags select |
| Lifecycle.TargetsOf | spec/classes/standard42_spec.rb:31-60 | no contract of its own; `Lifecycle.LifecycleTable` states the target of every resource under every disposition |
| Lifecycle.LifecycleTable | spec/classes/standard42_spec.rb:31-60 | only `absent` removes package and file; any flag disables boot start and the process monitor; `absent`, and `disable` without `disableboot`, stop the service and disable the firewall rule; `disableboot` leaves the run state unasserted and keeps the rule enabled; with no flag the service runs |
| Content.ResolveContent | spec/classes/standard42_spec.rb:73-100 | no contract of its own; `Content.ContentPrecedence` states which source wins |
| Content.ContentPrecedence | spec/classes/standard42_spec.rb:73-100 | the content source in force is one of the requested sources, has the highest rank among them, and is the only one of that rank (custom class over source over source_dir over template) |
| Plan.ConfigFile | spec/classes/standard42_spec.rb:73-108 | no contract of its own; `Plan.FileFollowsContent`, `Plan.RestartLink` and `Plan.NoopOnlySetsNoop` state the file it declares |
| Plan.BuildPlan | spec/classes/standard42_spec.rb:9-71 | the package and the service are titled `flyway`, the file `flyway.dir` under a directory source and `flyway.conf` otherwise; every resource carries the `noops` flag; the process monitor exists exactly when monitoring is on and the puppi hook exactly when puppi is on; no firewall rule without the firewall, no port monitor without monitoring |
| Plan.NoopOnlySetsNoop | spec/classes/standard42_spec.rb:62-71 | with `noops` the plan is the plan without `noops` with the noop flag set on every resource, so nothing else changes |
| Plan.PlanFollowsLifecycle | spec/classes/standard42_spec.rb:31-60 | package ensure is "absent" under `absent` and otherwise the version; file, service, process monitor and firewall rule follow the lifecycle table, in both directions |
| Plan.IntegrationsAttached | spec/classes/standard42_spec.rb:110-130 | the process monitor is titled `flyway_process` and carries the monitoring tool; with firewall, port and protocol set, the rule `flyway_<protocol>_<port>` exists and carries the firewall tool; the port monitor shares the rule's title; the puppi hook carries the helper and is present exactly when the file is |
| Plan.RestartLink | spec/classes/standard42_spec.rb:102-108 | the file notifies the service exactly when `service_autorestart` is on, and then it notifies `Service['flyway']` |
| Plan.Flyway | spec/classes/standard42_spec.rb:3-154 | no contract of its own; the scenario lemmas state the catalogue it compiles for each documented case |
| Plan.FileFollowsContent | spec/classes/standard42_spec.rb:73-100 | a file source is copied into `flyway.conf`; a directory source manages `flyway.dir` with force equal to purge; a template or custom class renders `flyway.conf` in a context holding the node's name and the `options` hash |
| Scenarios.SuiteFactNames | spec/classes/standard42_spec.rb:7 | `ipaddress` is the name of no parameter's fact; `monitor` and `flyway_monitor` are the facts of the `monitor` parameter and of no other |
| Scenarios.SuiteHostUnrelated | spec/classes/standard42_spec.rb:5-7 | the suite's host facts name no parameter, so every scenario lemma applies to it |
| Scenarios.SuiteNetworkTitle | spec/classes/standard42_spec.rb:28 | port 42 over tcp gives the title `flyway_tcp_42` |
| Scenarios.GlobalOnFactsShape | spec/classes/standard42_spec.rb:133 | the facts of the first lookup block set `monitor` to true and name no other parameter |
| Scenarios.SpecificOnFactsShape | spec/classes/standard42_spec.rb:139 | the facts of the second lookup block set `flyway_monitor` to true and name no other parameter |
| Scenarios.BothFactsShape | spec/classes/standard42_spec.rb:145 | the facts of the third lookup block set `flyway_monitor` to true and `monitor` to false and name no other parameter |
| Scenarios.GlobalOffFactsShape | spec/classes/standard42_spec.rb:151 | the facts of the fourth lookup block set `monitor` to false and name no other parameter |
| Scenarios.DefaultsResolved | spec/classes/standard42_spec.rb:9-14 | with no parameter and no relevant fact, the version is "present", every switch is off except `service_autorestart`, every string is undefined and the options are empty |
| Scenarios.StandardInstallation | spec/classes/standard42_spec.rb:9-14 | package `flyway` present, service running and enabled, file `flyway.conf` present |
| Scenarios.SpecificVersion | spec/classes/standard42_spec.rb:16-19 | the package ensure is the given version |
| Scenarios.MonitoringAndFirewalling | spec/classes/standard42_spec.rb:21-29 | package and service `flyway`; package present, service running and enabled, file present, process monitor and firewall rule declared and enabled |
| Scenarios.DecommissionAbsent | spec/classes/standard42_spec.rb:31-39 | package and service `flyway`; package and file absent, service stopped and not enabled, process monitor and firewall rule disabled |
| Scenarios.DecommissionDisable | spec/classes/standard42_spec.rb:41-49 | package and service `flyway`; package and file present, service stopped and not enabled, process monitor and firewall rule disabled |
| Scenarios.DecommissionDisableboot | spec/classes/standard42_spec.rb:51-60 | package and service `flyway`; package and file present, service run state unasserted and not enabled, process monitor disabled, firewall rule enabled |
| Scenarios.NoopsMode | spec/classes/standard42_spec.rb:62-71 | package and service `flyway`; package, service, file, process monitor, port monitor and firewall rule all noop |
| Scenarios.CustomTemplate | spec/classes/standard42_spec.rb:73-83 | `flyway.conf` is rendered from the given template in a context of the node's name and the given options |
| Scenarios.CustomSource | spec/classes/standard42_spec.rb:85-88 | `flyway.conf` has the given source |
| Scenarios.CustomSourceDir | spec/classes/standard42_spec.rb:90-95 | `flyway.dir` has the given source, purge and force |
| Scenarios.CustomClassContent | spec/classes/standard42_spec.rb:97-100 | `flyway.conf` is rendered by the given class in a context holding the node's name |
| Scenarios.NoAutorestart | spec/classes/standard42_spec.rb:102-108 | with `service_autorestart => "no"` the file has no notify |
| Scenarios.PuppiIntegration | spec/classes/standard42_spec.rb:110-113 | the `flyway` puppi hook carries the given helper |
| Scenarios.MonitoringToolIntegration | spec/classes/standard42_spec.rb:115-118 | the process monitor carries the given tool |
| Scenarios.FirewallToolIntegration | spec/classes/standard42_spec.rb:120-123 | the rule `flyway_<protocol>_<port>` carries the given tool |
| Scenarios.OldGenIntegration | spec/classes/standard42_spec.rb:125-130 | with "yes" switches the process monitor and the rule carry their tools and the puppi hook is present |
| Scenarios.LookupGlobalFact | spec/classes/standard42_spec.rb:132-136 | the global fact `monitor => true` declares an enabled process monitor |
| Scenarios.LookupModuleFact | spec/classes/standard42_spec.rb:138-142 | the fact `flyway_monitor => true` declares an enabled process monitor |
| Scenarios.LookupModuleOverGlobal | spec/classes/standard42_spec.rb:144-148 | `flyway_monitor => true` over `monitor => false` declares an enabled process monitor |
| Scenarios.LookupParamOverGlobal | spec/classes/standard42_spec.rb:150-154 | an explicit `monitor => true` over the fact `monitor => false` declares an enabled process monitor |

## Left out

- The class's manifests are not part of this model. The behaviour is taken from
  the test suite `spec/classes/standard42_spec.rb`. Where the suite leaves a
  case open, the choice the model makes is listed below.
- Template and custom-class rendering is opaque. The content is modelled as its
  origin plus the context it is rendered in: the node's name and the `options`
  hash. The tests only search the rendered text for those values.
- Catalogue compilation, resource relationships other than the file's `notify`,
  and the `monitor`, `firewall` and `puppi` defines themselves are left out.
  They belong to other modules.
- Plan.IntegrationsAttached: the port monitor is declared when monitoring is on
  and both port and protocol are set. This is stated only for the `noops`
  scenario and through its shared title, not in general.
- Plan.BuildPlan: when the firewall is on but the protocol is unset, the model
  declares no rule. No contract claims anything about this case.
- Values.ToBool: the model reads strings other than "true"/"yes"/"false"/"no",
  and hashes, as false. The test suite never passes such a value, so no
  contract promises this.
- A boolean or hash passed where a string is expected leaves that string
  parameter undefined. A non-hash `options` value reads as the empty hash.
- Asking for several content sources at once is not an error: the
  highest-ranked one wins.
- The model gives `absent` precedence over `disableboot`, and `disableboot`
  over `disable`. The test suite sets only one flag at a time and leaves the
  combinations open. `Lifecycle.LifecycleTable` states the model's choice.
- A `source_dir` manages one resource, `flyway.dir`, in place of `flyway.conf`.
  When the directory is used, the model declares no separate `flyway.conf`.
- Scenarios.DecommissionDisableboot: the test only requires that the service is
  neither `present` nor `absent`. The model states the stronger fact that no run
  state is asserted.
- The `ipaddress` fact and the node's address play no part in any decision.
  Every scenario is stated for any host whose facts name no parameter.
