/**
 * The desktop notifier: the `notify-send` argument vector that `send` builds,
 * the preview truncation of `success` and `clipboard_fallback`, and the
 * urgency `error` chooses. Running the command is the external effect; the
 * model returns the argument vector it would run, or `None` when nothing is run.
 */
module Notify {
  import opened Wrappers
  import opened PyStr

  /** The settings read once from the configuration (`notifications.enabled`, `notifications.duration`). */
  datatype Notifier = Notifier(enabled: bool, duration: nat)

  const AppName: string := "Swara"

  /** The command line for one notification. */
  function Argv(urgency: string, duration: nat, icon: Option<string>, title: string, message: string): seq<string> {
    ["notify-send", "-u", urgency, "-t", NatToString(duration), "-a", AppName]
    + (if Truthy(icon) then ["-i", icon.value] else [])
    + [title]
    + (if message != "" then [message] else [])
  }

  /** What a `notify-send` command line carries. */
  datatype Notification = Notification(urgency: string, duration: string, icon: Option<string>, title: string, message: string)

  /** Reads a command line of the shape `send` produces back into its parts. */
  function ParseArgv(argv: seq<string>): Option<Notification> {
    if |argv| < 8 || |argv| > 11 then None
    else if argv[0] != "notify-send" || argv[1] != "-u" || argv[3] != "-t" || argv[5] != "-a" || argv[6] != AppName then None
    else
      var hasIcon := |argv| >= 10;
      var hasMessage := |argv| == 9 || |argv| == 11;
      if hasIcon && argv[7] != "-i" then None
      else
        var t := if hasIcon then 9 else 7;
        Some(Notification(argv[2], argv[4], if hasIcon then Some(argv[8]) else None,
                          argv[t], if hasMessage then argv[t + 1] else ""))
  }

  /**
   * The command line carries exactly what was asked: the urgency, the
   * duration, the icon only when one is given, the title, and the message
   * only when it is non-empty.
   */
  lemma ParseArgvRoundTrip(urgency: string, duration: nat, icon: Option<string>, title: string, message: string)
    ensures ParseArgv(Argv(urgency, duration, icon, title, message))
         == Some(Notification(urgency, NatToString(duration), if Truthy(icon) then icon else None, title, message))
  {
    var a := Argv(urgency, duration, icon, title, message);
    if Truthy(icon) {
      assert a[7] == "-i" && a[8] == icon.value && a[9] == title;
      if message != "" { assert a[10] == message; }
    } else {
      assert a[7] == title;
      if message != "" { assert a[8] == message; }
    }
  }

  /**
   * `Notifier.send`: nothing is run when notifications are disabled;
   * otherwise the command line is assembled piece by piece. A failure of the
   * command itself is absorbed, so `send` never reports one.
   */
  method Send(n: Notifier, title: string, message: string, urgency: string, icon: Option<string>)
    returns (cmd: Option<seq<string>>)
    ensures cmd.Some? <==> n.enabled
    ensures cmd.Some? ==> cmd.value == Argv(urgency, n.duration, icon, title, message)
  {
    if !n.enabled {
      return None;
    }
    var c := ["notify-send", "-u", urgency, "-t", NatToString(n.duration), "-a", AppName];
    if Truthy(icon) {
      c := c + ["-i", icon.value];
    }
    c := c + [title];
    if message != "" {
      c := c + [message];
    }
    return Some(c);
  }

  /** A preview cut to `limit` characters, marked with "..." when it was cut. */
  function Preview(text: string, limit: nat): (r: string)
    ensures |text| <= limit ==> r == text
    ensures |text| > limit ==> |r| == limit + 3 && r[..limit] == text[..limit] && r[limit..] == "..."
  {
    if |text| > limit then text[..limit] + "..." else text
  }

  const DoneTitle: string := "\U{2713} Done"
  const ErrorTitle: string := "\U{26A0}\U{FE0F} Error"
  const FallbackTitle: string := "\U{1F4CB} Copied to Clipboard"
  const FallbackPrompt: string := "Press Ctrl+V to paste:\n"

  /** `Notifier.success`: the truncated preview, at normal urgency. */
  method Success(n: Notifier, preview: string, previewLength: nat) returns (cmd: Option<seq<string>>)
    ensures cmd.Some? <==> n.enabled
    ensures cmd.Some? ==> cmd.value == Argv("normal", n.duration, None, DoneTitle, Preview(preview, previewLength))
  {
    var shown := preview;
    if |shown| > previewLength {
      shown := shown[..previewLength] + "...";
    }
    cmd := Send(n, DoneTitle, shown, "normal", None);
  }

  /** `Notifier.error`: critical urgency exactly when `critical` is set, normal otherwise. */
  method Error(n: Notifier, message: string, critical: bool) returns (cmd: Option<seq<string>>)
    ensures cmd.Some? <==> n.enabled
    ensures cmd.Some? ==> cmd.value == Argv(if critical then "critical" else "normal", n.duration, None, ErrorTitle, message)
    ensures cmd.Some? ==> |cmd.value| >= 8 && cmd.value[7] == ErrorTitle
    ensures cmd.Some? && message != "" ==> |cmd.value| == 9 && cmd.value[8] == message
    ensures cmd.Some? ==> (cmd.value[2] == "critical" <==> critical)
    ensures cmd.Some? && !critical ==> cmd.value[2] == "normal"
  {
    var urgency := if critical then "critical" else "normal";
    cmd := Send(n, ErrorTitle, message, urgency, None);
  }

  /** `Notifier.clipboard_fallback`: the paste hint followed by the truncated preview. */
  method ClipboardFallback(n: Notifier, preview: string, previewLength: nat) returns (cmd: Option<seq<string>>)
    ensures cmd.Some? <==> n.enabled
    ensures cmd.Some? ==> cmd.value == Argv("normal", n.duration, None, FallbackTitle, FallbackPrompt + Preview(preview, previewLength))
  {
    var shown := preview;
    if |shown| > previewLength {
      shown := shown[..previewLength] + "...";
    }
    cmd := Send(n, FallbackTitle, FallbackPrompt + shown, "normal", None);
  }
}
