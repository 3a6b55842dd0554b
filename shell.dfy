/** How the commands the modelled code shells out to can end. The commands
    themselves (systemctl, iwconfig, ip, nmcli, ...) are outside the model;
    every operation that runs one receives its ending as an input. */
module Shell {

  /** `subprocess.getoutput` and friends: the command ran (its output is
      not needed), or the call raised an exception with text `reason`. */
  datatype Outcome = Completed | Raised(reason: string)

  /** A command whose output matters: the text it printed, or an exception. */
  datatype Probe = Output(text: string) | ProbeRaised(reason: string)

  /** `subprocess.run(..., capture_output=True)`: the exit status and both
      streams, or the program could not be started at all. */
  datatype Completion = Exited(code: int, stdout: string, stderr: string) | NotStarted(reason: string)

  predicate Succeeded(c: Completion) {
    c.Exited? && c.code == 0
  }
}
