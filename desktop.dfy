/**
 * The desktop the core talks to: the clipboard (through pyperclip) and the
 * outcomes of the external tools it runs. Each tool run is an oracle input:
 * the model decides nothing about what the tool does, only what the core
 * does with each possible outcome.
 */
module Desktop {
  import opened Wrappers

  /**
   * The system clipboard. `working` is false when pyperclip finds no
   * copy/paste mechanism, in which case every `paste()` and `copy()` raises.
   */
  class Clipboard {
    var contents: string
    const working: bool

    constructor (contents: string, working: bool)
      ensures this.contents == contents && this.working == working
    {
      this.contents := contents;
      this.working := working;
    }
  }

  /** How a `subprocess.run` of a text-producing tool ended. */
  datatype ToolRun =
    | Exited(code: int, stdout: string)
    | TimedOut                          // subprocess.TimeoutExpired
    | NotFound                          // FileNotFoundError: the tool is not installed
    | Crashed                           // any other exception

  /**
   * How a `ydotool key` run that sends a copy keystroke ended: it ran, and the
   * focused application put `copied` on the clipboard (or nothing), or the
   * run raised (timeout, tool missing).
   */
  datatype KeyPress = Pressed(copied: Option<string>) | PressFailed

  /**
   * How the active-window query ended: the exit code and the decoded JSON
   * object (`None` when the output is not a JSON object), or an exception.
   */
  datatype WindowQuery = WindowExited(code: int, json: Option<map<string, string>>) | WindowFailed
}
