/**
 * A process command line seen as its switches: a map from switch name to
 * value ("" for a switch without a value).  As in base::CommandLine,
 * appending a switch that is already present replaces its value, and
 * HasSwitch asks whether the name is present.
 */
module CommandLine {
  type Switches = map<string, string>

  function AppendSwitch(cmd: Switches, name: string): Switches
  {
    cmd[name := ""]
  }

  function AppendSwitchValue(cmd: Switches, name: string, value: string): Switches
  {
    cmd[name := value]
  }

  predicate HasSwitch(cmd: Switches, name: string) { name in cmd }

  /** GetSwitchValueASCII: the value of a present switch, "" for an absent one. */
  function SwitchValue(cmd: Switches, name: string): string
  {
    if name in cmd then cmd[name] else ""
  }
}
