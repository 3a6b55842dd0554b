/** What the SSH and HTTP manager panels share: the label of their
    start/stop button and the result of running `systemctl`. */
module ServicePanel {
  const StartLabel := "Start Service"
  const StopLabel := "Stop Service"

  /** Running a command: it completed with an exit code, or running it
      raised (the executable could not be started). */
  datatype RunResult = Completed(code: int) | Raised

  /** The label the button shows after a successful toggle. */
  function Flipped(text: string): (r: string)
    ensures r == StartLabel || r == StopLabel
    ensures r != text
  {
    if text == StartLabel then StopLabel else StartLabel
  }

  /** The `systemctl` verb a toggle issues for the button's label. */
  function Verb(text: string): string {
    if text == StartLabel then "start" else "stop"
  }
}
