/**
 * Text injection: choose a strategy from the captured context, type or paste
 * the text through `ydotool`, and fall back to leaving the text on the
 * clipboard with a notification when the chosen strategy fails.
 *
 * Every `ydotool` run is an oracle input (a `ToolRun`); the injector records
 * the command lines it runs and the notifications it sends, in order, so the
 * contracts can say what reached the desktop.
 */
module Inject {
  import opened Wrappers
  import opened PyStr
  import opened Desktop
  import Context
  import Utils
  import Notify

  /** What the strategy choice looks at. `appClass` is `None` when the window could not be queried. */
  datatype InjectionContext = InjectionContext(hadSelection: bool, selectionLength: int, appClass: Option<string>)

  /**
   * The injection context `inject` builds: no captured context means no
   * selection, length 0 and the application "unknown".
   */
  function InjectionContextOf(ctx: Context.Context?): (r: InjectionContext)
    reads ctx
    ensures r.hadSelection <==> ctx != null && ctx.selectedText.Some? && |ctx.selectedText.value| > 0
    ensures ctx == null ==> r == InjectionContext(false, 0, Some("unknown"))
    ensures ctx != null ==> r.selectionLength == ctx.selectionLength && r.appClass == ctx.activeWindow
  {
    if ctx == null then InjectionContext(false, 0, Some("unknown"))
    else InjectionContext(Truthy(ctx.selectedText), ctx.selectionLength, ctx.activeWindow)
  }

  /** Applications whose own typing replaces the selection. */
  const NativeReplaceApps: seq<string> :=
    ["brave", "chromium", "firefox", "code", "cursor", "sublime", "gedit", "kate", "mousepad"]

  /** Terminal-like applications, where the selection has to be deleted first. */
  const ExplicitDeleteApps: seq<string> :=
    ["terminal", "kitty", "alacritty", "konsole", "ghostty", "wezterm", "foot", "gnome-terminal"]

  /** The lower-cased application class the lists are matched against; "" when there is none. */
  function AppKey(app: Option<string>): string {
    if Truthy(app) then Lower(app.value) else ""
  }

  /**
   * `_choose_strategy`: "explicit" exactly when there is a selection, no
   * native-replace name occurs in the application class, and some
   * terminal name does; "native" in every other case (no selection, a
   * native application, an unknown application). Names match as substrings.
   */
  function ChooseStrategy(c: InjectionContext): (r: string)
    ensures r == "native" || r == "explicit"
    ensures !c.hadSelection ==> r == "native"
    ensures r == "explicit" <==>
              && c.hadSelection
              && (forall k :: 0 <= k < |NativeReplaceApps| ==> !Contains(AppKey(c.appClass), NativeReplaceApps[k]))
              && (exists k :: 0 <= k < |ExplicitDeleteApps| && Contains(AppKey(c.appClass), ExplicitDeleteApps[k]))
  {
    if !c.hadSelection then "native"
    else
      var app := AppKey(c.appClass);
      if AnyIn(NativeReplaceApps, app) then "native"
      else if AnyIn(ExplicitDeleteApps, app) then "explicit"
      else "native"
  }

  /** The application class is matched without regard to (ASCII) case. */
  lemma {:induction false} ChooseStrategyIgnoresCase(c: InjectionContext, app: string)
    ensures ChooseStrategy(c.(appClass := Some(app))) == ChooseStrategy(c.(appClass := Some(Lower(app))))
  {
    LowerIdempotent(app);
    assert AppKey(Some(app)) == AppKey(Some(Lower(app)));
  }

  /** A selection in an editor is typed over: "Code" matches "code" once lower-cased. */
  lemma EditorTypesOver()
    ensures ChooseStrategy(InjectionContext(true, 12, Some("Code"))) == "native"
  {
    assert Lower("Code") == "code";
    assert Contains("code", NativeReplaceApps[3]);
  }

  /** A selection in a terminal is deleted first. */
  lemma TerminalDeletesFirst()
    ensures ChooseStrategy(InjectionContext(true, 12, Some("kitty"))) == "explicit"
  {
    var app := "kitty";
    assert AppKey(Some(app)) == app;
    // Each native name has a letter "kitty" lacks.
    var missing := [0, 0, 0, 0, 0, 0, 0, 1, 0];
    forall k | 0 <= k < |NativeReplaceApps| ensures !Contains(app, NativeReplaceApps[k]) {
      MissingCharNotContained(app, NativeReplaceApps[k], missing[k]);
    }
    assert OccursAt(ExplicitDeleteApps[1], app, 0);
  }

  /** Without a selection, or without a known application class, the text is simply typed. */
  lemma {:induction false} DefaultsToNative(c: InjectionContext)
    requires !c.hadSelection || !Truthy(c.appClass)
    ensures ChooseStrategy(c) == "native"
  {
    if c.hadSelection {
      assert AppKey(c.appClass) == "";
      forall k | 0 <= k < |ExplicitDeleteApps| ensures !Contains("", ExplicitDeleteApps[k]) {
        assert |ExplicitDeleteApps[k]| > 0;
      }
    }
  }

  // ---------------------------------------------------------------------------
  // The command lines and what the tool outcomes mean
  // ---------------------------------------------------------------------------

  /** `_type_text`'s command line: the key delay in milliseconds and the shell-escaped text. */
  function TypeArgv(delayMs: nat, text: string): seq<string> {
    ["ydotool", "type", "--key-delay", NatToString(delayMs), Utils.Escaped(text)]
  }

  /** `_delete_selection`'s command line: press and release Backspace (key code 14). */
  const BackspaceArgv: seq<string> := ["ydotool", "key", "14:1", "14:0"]

  /** `_paste_text`'s command line: Ctrl (29) down, V (47) down and up, Ctrl up. */
  const PasteArgv: seq<string> := ["ydotool", "key", "29:1", "47:1", "47:0", "29:0"]

  /** The typing command line carries the delay and, once unescaped, exactly the text. */
  lemma {:induction false} TypeArgvCarriesText(delayMs: nat, text: string)
    ensures |TypeArgv(delayMs, text)| == 5
    ensures ParseNat(TypeArgv(delayMs, text)[3]) == delayMs
    ensures Utils.Unescape(TypeArgv(delayMs, text)[4]) == text
  {
    ParseNatToString(delayMs);
    Utils.UnescapeEscaped(text);
  }

  /** Typing runs with `check=True`: it succeeded only when `ydotool` exited with 0. */
  predicate Typed(run: ToolRun) {
    run.Exited? && run.code == 0
  }

  /** A key run without `check`: any exit counts; a timeout, a missing tool or a crash raises. */
  predicate KeysSent(run: ToolRun) {
    run.Exited?
  }

  /**
   * What `_execute_strategy` reports. `typeRun` is the outcome of the typing
   * run and `keyRun` of the key run (Backspace or Ctrl+V), whichever the
   * strategy performs.
   */
  function StrategySucceeds(strategy: string, working: bool, typeRun: ToolRun, keyRun: ToolRun): bool {
    if strategy == "native" || strategy == "explicit" then Typed(typeRun)
    else if strategy == "paste" then working && KeysSent(keyRun)
    else false
  }

  /** The `ydotool` command lines a strategy runs, in order. */
  function StrategyCommands(strategy: string, hadSelection: bool, delayMs: nat, text: string, working: bool): seq<seq<string>> {
    if strategy == "native" then [TypeArgv(delayMs, text)]
    else if strategy == "explicit" then (if hadSelection then [BackspaceArgv] else []) + [TypeArgv(delayMs, text)]
    else if strategy == "paste" then (if working then [PasteArgv] else [])
    else []
  }

  /**
   * The clipboard after a strategy: only pasting touches it, and it keeps
   * the text only when the Ctrl+V run raised before the original was put back.
   */
  function StrategyClipboard(strategy: string, text: string, original: string, working: bool, keyRun: ToolRun): string {
    if strategy == "paste" && working && !KeysSent(keyRun) then text else original
  }

  /** An unknown strategy name runs nothing and fails. */
  lemma UnknownStrategyFails(strategy: string, hadSelection: bool, delayMs: nat, text: string, working: bool,
                             typeRun: ToolRun, keyRun: ToolRun)
    requires strategy !in {"native", "explicit", "paste"}
    ensures !StrategySucceeds(strategy, working, typeRun, keyRun)
    ensures StrategyCommands(strategy, hadSelection, delayMs, text, working) == []
  {
  }

  /**
   * Whichever strategy runs, the text reaches the desktop in full: every
   * typing command carries it (escaped), and the strategy ends with that
   * command or with the paste keystroke.
   */
  lemma {:induction false} StrategyTypesWholeText(strategy: string, hadSelection: bool, delayMs: nat, text: string, working: bool)
    requires StrategyCommands(strategy, hadSelection, delayMs, text, working) != []
    ensures var cmds := StrategyCommands(strategy, hadSelection, delayMs, text, working);
            var last := cmds[|cmds| - 1];
            last == PasteArgv || (|last| == 5 && last[1] == "type" && Utils.Unescape(last[4]) == text)
  {
    TypeArgvCarriesText(delayMs, text);
  }

  /** The notifications a notifier call sends: one command line, or none when notifications are off. */
  function Sent(cmd: Option<seq<string>>): seq<seq<string>> {
    if cmd.Some? then [cmd.value] else []
  }

  /** The notification of a successful clipboard fallback. */
  function FallbackNotice(n: Notify.Notifier, previewLength: nat, text: string): seq<string> {
    Notify.Argv("normal", n.duration, None, Notify.FallbackTitle, Notify.FallbackPrompt + Notify.Preview(text, previewLength))
  }

  const InjectFailedMessage: string := "Failed to inject text"

  /** The critical notification of a failed clipboard fallback. */
  function InjectFailedNotice(n: Notify.Notifier): seq<string> {
    Notify.Argv("critical", n.duration, None, Notify.ErrorTitle, InjectFailedMessage)
  }

  /** What the clipboard fallback announces: the paste hint with a working clipboard, a critical error without one. */
  function FallbackNotices(n: Notify.Notifier, previewLength: nat, text: string, working: bool): seq<seq<string>> {
    if !n.enabled then []
    else if working then [FallbackNotice(n, previewLength, text)]
    else [InjectFailedNotice(n)]
  }

  /** `inject`'s result: the chosen strategy succeeded, or it failed and the clipboard fallback (when enabled) did not. */
  function InjectSucceeds(text: string, c: InjectionContext, strategy: string, fallback: bool, working: bool,
                          typeRun: ToolRun, keyRun: ToolRun): bool {
    if text == "" then false
    else
      var chosen := if strategy == "auto" then ChooseStrategy(c) else strategy;
      StrategySucceeds(chosen, working, typeRun, keyRun) || (fallback && working)
  }

  /**
   * With the clipboard fallback enabled and a usable clipboard, injecting
   * non-empty text always reports success; without a clipboard, only typing
   * can succeed.
   */
  lemma InjectOutcomes(text: string, c: InjectionContext, strategy: string, fallback: bool, working: bool,
                       typeRun: ToolRun, keyRun: ToolRun)
    ensures text != "" && fallback && working ==> InjectSucceeds(text, c, strategy, fallback, working, typeRun, keyRun)
    ensures InjectSucceeds(text, c, strategy, fallback, working, typeRun, keyRun) && !working ==> Typed(typeRun)
    ensures text == "" ==> !InjectSucceeds(text, c, strategy, fallback, working, typeRun, keyRun)
    // Without the fallback, the result is exactly the chosen strategy's.
    ensures text != "" && !fallback ==>
              InjectSucceeds(text, c, strategy, fallback, working, typeRun, keyRun)
              == StrategySucceeds(if strategy == "auto" then ChooseStrategy(c) else strategy, working, typeRun, keyRun)
  {
  }

  /** `SmartTextInjector`: its settings, the clipboard, and the record of what it ran. */
  class SmartTextInjector {
    const clip: Clipboard
    const notifier: Notify.Notifier
    /** `int(output.typing_delay * 1000)`. */
    const typingDelayMs: nat
    /** `output.fallback_to_clipboard`. */
    const fallbackToClipboard: bool
    /** `notifications.preview_length`. */
    const previewLength: nat
    /** The `ydotool` command lines run so far, in order. */
    var commands: seq<seq<string>>
    /** The `notify-send` command lines run so far, in order. */
    var notifications: seq<seq<string>>

    constructor (clip: Clipboard, notifier: Notify.Notifier, typingDelayMs: nat, fallbackToClipboard: bool, previewLength: nat)
      ensures this.clip == clip && this.notifier == notifier && this.typingDelayMs == typingDelayMs
      ensures this.fallbackToClipboard == fallbackToClipboard && this.previewLength == previewLength
      ensures commands == [] && notifications == []
    {
      this.clip := clip;
      this.notifier := notifier;
      this.typingDelayMs := typingDelayMs;
      this.fallbackToClipboard := fallbackToClipboard;
      this.previewLength := previewLength;
      commands := [];
      notifications := [];
    }

    /** `_type_text`: escape the text, run `ydotool type`, and report whether it exited with 0. */
    method TypeText(text: string, run: ToolRun) returns (ok: bool)
      modifies this
      ensures commands == old(commands) + [TypeArgv(typingDelayMs, text)]
      ensures notifications == old(notifications)
      ensures ok <==> Typed(run)
    {
      var escaped := Utils.EscapeForShell(text);
      commands := commands + [["ydotool", "type", "--key-delay", NatToString(typingDelayMs), escaped]];
      match run {
        case Exited(code, _) =>
          ok := code == 0;               // a non-zero exit raises CalledProcessError
        case TimedOut =>
          ok := false;
        case NotFound =>
          ok := false;
        case Crashed =>
          ok := false;
      }
    }

    /** `_delete_selection`: send Backspace; whatever happens is ignored. */
    method DeleteSelection(run: ToolRun)
      modifies this
      ensures commands == old(commands) + [BackspaceArgv]
      ensures notifications == old(notifications)
    {
      commands := commands + [BackspaceArgv];
    }

    /**
     * `_paste_text`: back the clipboard up, put the text on it, send Ctrl+V
     * and put the backup back. Without a clipboard it fails before doing
     * anything; when the keystroke raises, the text stays on the clipboard.
     */
    method PasteText(text: string, run: ToolRun) returns (ok: bool)
      modifies this, clip
      ensures ok <==> clip.working && KeysSent(run)
      ensures commands == old(commands) + (if clip.working then [PasteArgv] else [])
      ensures notifications == old(notifications)
      ensures clip.contents == if clip.working && !KeysSent(run) then text else old(clip.contents)
    {
      if !clip.working {
        return false;                    // paste() raised
      }
      var original := clip.contents;
      clip.contents := text;
      commands := commands + [PasteArgv];
      if !run.Exited? {
        return false;                    // the keystroke run raised; the clipboard keeps the text
      }
      clip.contents := original;
      return true;
    }

    /** `_execute_strategy`: dispatch on the strategy name; an unknown name fails. */
    method ExecuteStrategy(text: string, c: InjectionContext, strategy: string, typeRun: ToolRun, keyRun: ToolRun)
      returns (ok: bool)
      modifies this, clip
      ensures ok == StrategySucceeds(strategy, clip.working, typeRun, keyRun)
      ensures commands == old(commands) + StrategyCommands(strategy, c.hadSelection, typingDelayMs, text, clip.working)
      ensures notifications == old(notifications)
      ensures clip.contents == StrategyClipboard(strategy, text, old(clip.contents), clip.working, keyRun)
    {
      if strategy == "native" {
        ok := TypeText(text, typeRun);
      } else if strategy == "explicit" {
        if c.hadSelection {
          DeleteSelection(keyRun);
        }
        ok := TypeText(text, typeRun);
      } else if strategy == "paste" {
        ok := PasteText(text, keyRun);
      } else {
        ok := false;
      }
    }

    /**
     * `_fallback_paste`: leave the text on the clipboard and say so; when the
     * clipboard is unusable, send a critical error instead and fail.
     */
    method FallbackPaste(text: string) returns (ok: bool)
      modifies this, clip
      ensures ok <==> clip.working
      ensures clip.contents == if clip.working then text else old(clip.contents)
      ensures commands == old(commands)
      ensures notifications == old(notifications) + FallbackNotices(notifier, previewLength, text, clip.working)
    {
      if clip.working {
        clip.contents := text;
        var cmd := Notify.ClipboardFallback(notifier, text, previewLength);
        notifications := notifications + Sent(cmd);
        return true;
      }
      var cmd := Notify.Error(notifier, InjectFailedMessage, true);
      notifications := notifications + Sent(cmd);
      return false;
    }

    /**
     * `inject`: empty text is refused outright; "auto" lets the context
     * choose the strategy; a failed strategy falls back to the clipboard
     * when that is enabled.
     */
    method Inject(text: string, ctx: Context.Context?, strategy: string, typeRun: ToolRun, keyRun: ToolRun)
      returns (ok: bool)
      modifies this, clip
      ensures ok == InjectSucceeds(text, InjectionContextOf(ctx), strategy, fallbackToClipboard, clip.working, typeRun, keyRun)
      ensures text == "" ==> commands == old(commands) && notifications == old(notifications) && clip.contents == old(clip.contents)
      ensures text != "" ==>
                var chosen := if strategy == "auto" then ChooseStrategy(InjectionContextOf(ctx)) else strategy;
                commands == old(commands) + StrategyCommands(chosen, InjectionContextOf(ctx).hadSelection, typingDelayMs, text, clip.working)
      // The fallback runs exactly when the strategy failed and it is enabled; it alone notifies.
      ensures text != "" ==>
                var c := InjectionContextOf(ctx);
                var chosen := if strategy == "auto" then ChooseStrategy(c) else strategy;
                if !StrategySucceeds(chosen, clip.working, typeRun, keyRun) && fallbackToClipboard then
                  && notifications == old(notifications) + FallbackNotices(notifier, previewLength, text, clip.working)
                  && clip.contents == (if clip.working then text else old(clip.contents))
                else
                  && notifications == old(notifications)
                  && clip.contents == StrategyClipboard(chosen, text, old(clip.contents), clip.working, keyRun)
      // The clipboard ends as it was or holding the text, never anything else.
      ensures clip.contents == old(clip.contents) || clip.contents == text
    {
      if text == "" {
        return false;
      }
      var c := InjectionContextOf(ctx);
      var chosen := strategy;
      if chosen == "auto" {
        chosen := ChooseStrategy(c);
      }
      ok := ExecuteStrategy(text, c, chosen, typeRun, keyRun);
      if !ok && fallbackToClipboard {
        ok := FallbackPaste(text);
      }
    }
  }
}
