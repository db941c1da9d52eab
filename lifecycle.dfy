/**
 * The lifecycle state machine: the flags `absent`, `disable` and
 * `disableboot` select one disposition of the unit (in that precedence:
 * `absent` over `disableboot` over `disable`), and the disposition fixes the
 * target state of the package, the service, the configuration file and the
 * enable flag of the monitoring and firewall resources.
 */
module Lifecycle {
  import opened Wrappers

  /** The overall disposition of the unit. */
  datatype State =
    | Active        // installed, running, enabled at boot
    | BootDisabled  // installed, not enabled at boot, run state left alone
    | Disabled      // installed, stopped, not enabled at boot
    | Removed       // uninstalled, stopped, not enabled at boot

  /** The run state asserted for the service (`ensure => running` or `stopped`). */
  datatype RunState = Running | Stopped

  /** `ensure => present` or `ensure => absent` for files and integration hooks. */
  datatype Presence = Present | Absent

  /** The target states the disposition fixes. */
  datatype Targets = Targets(
    removePackage: bool,
    run: Option<RunState>,
    enable: bool,
    file: Presence,
    monitorEnable: bool,
    firewallEnable: bool
  )

  /** The disposition selected by the flags. */
  function Decide(absent: bool, disable: bool, disableboot: bool): State {
    if absent then Removed
    else if disableboot then BootDisabled
    else if disable then Disabled
    else Active
  }

  /** The target states of a disposition. */
  function TargetsOf(s: State): Targets {
    match s
    case Active => Targets(false, Some(Running), true, Present, true, true)
    case BootDisabled => Targets(false, None, false, Present, false, true)
    case Disabled => Targets(false, Some(Stopped), false, Present, false, false)
    case Removed => Targets(true, Some(Stopped), false, Absent, false, false)
  }

  /**
   * The lifecycle table, flag by flag: only `absent` removes the package and
   * the file; any flag turns boot-enable and monitoring off; `absent` and
   * `disable` stop the service and turn the firewall rule off, while
   * `disableboot` leaves the run state unasserted and keeps the rule on.
   */
  lemma LifecycleTable(absent: bool, disable: bool, disableboot: bool)
    ensures var t := TargetsOf(Decide(absent, disable, disableboot));
      && (t.removePackage <==> absent)
      && (t.file == Absent <==> absent)
      && (t.enable <==> !absent && !disable && !disableboot)
      && (t.run == Some(Running) <==> !absent && !disable && !disableboot)
      && (t.run == None <==> !absent && disableboot)
      && (t.run == Some(Stopped) <==> absent || (disable && !disableboot))
      && (t.monitorEnable <==> !absent && !disable && !disableboot)
      && (t.firewallEnable <==> !absent && (disableboot || !disable))
  {
  }
}
