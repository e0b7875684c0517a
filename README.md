# Swara core, modelled in Dafny

Swara is a voice-writing tool for Wayland desktops. One invocation does four things:

1. It captures the context: the selected text, the focused application and a backup of the clipboard.
2. It routes the transcribed utterance by keyword to a language-model handler or to a local command.
3. It injects the result into the focused application, by typing it with `ydotool`, by deleting the selection first and then typing, or by pasting.
4. When injection fails, it falls back to leaving the text on the clipboard and sending a notification.

This project models that pipeline and the helpers it relies on, and proves what each step promises:

- `Gemini` (`gemini.dfy`): intent analysis, dispatch, the handlers' fallbacks, and the local date/time command.
- `Inject` (`inject.dfy`): strategy choice and execution, paste with clipboard backup, and the clipboard fallback.
- `Context` (`context.dfy`): the `Context` record, selection capture, the simulated copy, capture and restoration.
- `Utils` (`utils.dfy`): the shell escaper.
- `Config` (`config.dfy`): dot-path lookup and the environment-over-configuration rule for the whisper paths.
- `Notify` (`notify.dfy`): the `notify-send` command line, previews and urgency.
- `PyStr` (`pystr.dfy`): the Python string built-ins the core uses: `lower`, `strip`, `in`, truthiness and `str(n)`.
- `Desktop` (`desktop.dfy`): the clipboard, and the outcomes of the external tools.
- `Wrappers` (`wrappers.dfy`): `Option`.

The external world is written as state and parameters:

- The clipboard is the object `Desktop.Clipboard`.
  - Its `contents` field is what pyperclip reads and writes.
  - Its `working` flag is false when pyperclip has no mechanism; then every `paste()`/`copy()` raises.
  - The context manager and the injector share one clipboard.
- Every run of `wl-paste`, `ydotool` or `hyprctl` is an oracle input: the exit code and output, a timeout, a missing tool, or another exception. The model says what the core does with each outcome.
- The injector records the `ydotool` and `notify-send` command lines it runs, so the contracts can say what reached the desktop.
- The language model is an oracle `reply: Option<string>`. `None` means the call raised.
- The clock is a parameter: `now` for `datetime.now()`, and a `real` for `time.time()`.

The classes follow the source:

- `Context.Context` and `Context.ContextManager` have fields that the methods update in place.
- `Inject.SmartTextInjector` works on the shared clipboard.
- `Context.ContextManager.QuickSelectionCapture`, `Config.Get` and `Utils.EscapeForShell` are loops, proved against reference functions (`FirstNonBlank`, `Lookup`, `Escaped`). Lemmas state the properties of those functions.

## Model

| member | source | states |
|---|---|---|
| PyStr.Lower | src/swara_core/gemini.py:117 | `lower()` keeps the length and maps every character through the ASCII case map |
| PyStr.LowerIdempotent | src/swara_core/gemini.py:117 | lower-casing twice is lower-casing once |
| PyStr.Contains | src/swara_core/gemini.py:120 | `sub in s` holds exactly when `sub` occurs at some position of `s` |
| PyStr.AnyIn | src/swara_core/gemini.py:120 | `any(kw in s for kw in keywords)` holds exactly when some keyword of the list occurs in `s` |
| PyStr.StripIsTrimmedInfix | src/swara_core/context.py:102-104 | `strip()` leaves an infix of the input, with whitespace only cut off on either side, and neither end of the result is whitespace |
| PyStr.StripEmptyIffBlank | src/swara_core/context.py:102 | `len(text.strip()) > 0` fails exactly for whitespace-only text |
| PyStr.StripIdempotent | src/swara_core/gemini.py:156 | stripping a stripped reply changes nothing |
| PyStr.NatToString | src/swara_core/notify.py:48 | `str(n)` is a non-empty digit string without a leading zero |
| PyStr.ParseNatToString | src/swara_core/inject.py:155-158 | `str(n)` reads back as `n` |
| Utils.EscapeForShell | src/swara_core/utils.py:96-110 | the replace loop over the ordered table returns the per-character escape of the text |
| Utils.SequentialIsPerCharacter | src/swara_core/utils.py:99-108 | the five whole-string replacements, backslash first, equal one left-to-right per-character map |
| Utils.EscapeOneCharacter | src/swara_core/utils.py:99-105 | the table turns each single character into its escape: backslash plus the character (`n` for newline), or the character itself |
| Utils.BackslashLastWouldDouble | src/swara_core/utils.py:99-100 | the order matters: with backslash replaced last, the backslash inserted before a quote would be doubled |
| Utils.EscapedLength | src/swara_core/utils.py:99-105 | output length is input length plus the number of special characters |
| Utils.EscapedHasNoNewline | src/swara_core/utils.py:104 | the output contains no newline |
| Utils.EscapedPlainUnchanged | src/swara_core/utils.py:107-110 | text without special characters comes back unchanged |
| Utils.UnescapeEscaped | src/swara_core/utils.py:96-110 | escaping loses nothing: unescaping the output gives the input back |
| Config.Split | src/swara_core/config.py:97 | `key.split(".")` gives at least one piece, none containing a dot |
| Config.JoinSplit | src/swara_core/config.py:97 | joining the pieces with dots gives the key back |
| Config.SplitJoin | src/swara_core/config.py:97 | splitting dot-free pieces joined with dots gives the pieces back |
| Config.Get | src/swara_core/config.py:95-109 | the dot-path walk with its early returns equals the path lookup `Lookup` |
| Config.LookupReached | src/swara_core/config.py:99-109 | a path that resolves through dictionaries to a non-None value yields that value as stored, falsy values included |
| Config.LookupThroughNonDict | src/swara_core/config.py:101-104 | a non-dictionary on the path with keys still to follow gives the default |
| Config.LookupMissingOrNone | src/swara_core/config.py:102-107 | a missing key or a stored None on the path gives the default |
| Config.LookupIsDefaultOrReached | src/swara_core/config.py:95-109 | whatever `get` returns is the default or the value the path resolves to |
| Config.PathSetting | src/swara_core/config.py:121-134 | a non-empty environment variable wins; otherwise the configured string, and no path when the entry is not a string |
| Config.WhisperExecutable | src/swara_core/config.py:121-126 | a non-empty `WHISPER_EXECUTABLE` wins; otherwise there is a path exactly when `whisper.executable` is a string, and it is that string |
| Config.WhisperModel | src/swara_core/config.py:129-134 | a non-empty `WHISPER_MODEL` wins; otherwise there is a path exactly when `whisper.model_path` is a string, and it is that string |
| Notify.Send | src/swara_core/notify.py:23-65 | nothing is run when notifications are disabled; otherwise the command line is `notify-send -u U -t D -a Swara`, then `-i icon` only with an icon, then the title, then the message only when non-empty |
| Notify.ParseArgvRoundTrip | src/swara_core/notify.py:43-59 | the command line carries exactly the urgency, duration, icon, title and message asked for |
| Notify.Preview | src/swara_core/notify.py:94-96 | a preview longer than the limit is its first `limit` characters plus "..."; otherwise it is unchanged |
| Notify.Success | src/swara_core/notify.py:87-98 | the "Done" notification carries the truncated preview at normal urgency |
| Notify.Error | src/swara_core/notify.py:100-109 | the urgency is "critical" exactly when `critical` is set, "normal" otherwise, with the error title and the message |
| Notify.ClipboardFallback | src/swara_core/notify.py:111-121 | the body is the paste hint followed by the truncated preview |
| Context.Context.constructor | src/swara_core/context.py:28-32 | a zero timestamp becomes `now`; a non-empty selection sets the length to its own, overriding the given one |
| Context.FirstFound | src/swara_core/context.py:99-104 | the index of the first attempt whose text strips to something non-empty; none before it qualifies |
| Context.FirstNonBlank | src/swara_core/context.py:99-110 | some attempt found a selection exactly when the result is present; the result is the non-empty stripped text of the first such attempt |
| Context.WlPastePrimary | src/swara_core/context.py:112-128 | stdout only on exit 0 with non-empty output; a timeout or missing tool is no result; other exceptions escape |
| Context.ActiveWindow | src/swara_core/context.py:161-180 | the "class" field, "unknown" when it is absent, and None on a non-zero exit, bad output or an exception |
| Context.SimulateCopyOutcome | src/swara_core/context.py:130-159 | nothing new copied, without an exception, puts the original clipboard back; the result is the copied text, left on the clipboard, exactly when the keystroke copied non-empty text different from the original; a failed keystroke leaves it cleared; no clipboard changes nothing |
| Context.ContextManager.SimulateCopy | src/swara_core/context.py:130-159 | the method's result and clipboard are those of `SimulateCopyOutcome` |
| Context.ContextManager.QuickSelectionCapture | src/swara_core/context.py:89-110 | the loop over the capture methods returns `FirstNonBlank` of their attempts, and runs the simulated copy only when the primary selection found nothing |
| Context.CaptureClipboardCases | src/swara_core/context.py:72-75 | after selection capture the clipboard holds the original, nothing (failed keystroke), or the newly copied selection, which is then what the backup records |
| Context.TruncateSelection | src/swara_core/context.py:57-64 | the selection is absent exactly when nothing was captured; otherwise it is a prefix of at most `limit` characters, exactly `limit` when truncated, unchanged otherwise |
| Context.ContextManager.CaptureContext | src/swara_core/context.py:43-78 | the context is fresh and recorded as current; its selection is the truncated capture; its length stays 0; the backup is the clipboard after capture (none without a clipboard) |
| Context.Restored | src/swara_core/context.py:80-87 | a backup is written only with a working clipboard; otherwise the clipboard is unchanged |
| Context.RestoreIdempotent | src/swara_core/context.py:80-87 | restoring twice leaves the clipboard as restoring once |
| Context.ContextManager.RestoreContext | src/swara_core/context.py:80-87 | the clipboard gets the backup only when there is a current context with a non-empty backup |
| Inject.InjectionContextOf | src/swara_core/inject.py:81-85 | a selection is reported exactly for a context with non-empty selected text; no context means length 0 and application "unknown" |
| Inject.ChooseStrategy | src/swara_core/inject.py:102-118 | only "native" or "explicit"; "native" without a selection; "explicit" exactly when no native-replace name and some terminal name occur in the lower-cased class |
| Inject.ChooseStrategyIgnoresCase | src/swara_core/inject.py:107 | the class is matched without regard to case |
| Inject.EditorTypesOver | src/swara_core/inject.py:107-111 | a selection in "Code" is typed over (it matches "code") |
| Inject.TerminalDeletesFirst | src/swara_core/inject.py:113-115 | a selection in "kitty" is deleted first |
| Inject.DefaultsToNative | src/swara_core/inject.py:104-105 | for every context with no selection, or with no (or an empty) application class, the strategy is "native" |
| Inject.TypeArgvCarriesText | src/swara_core/inject.py:152-161 | the typing command line carries the delay and, once unescaped, exactly the text |
| Inject.UnknownStrategyFails | src/swara_core/inject.py:140-142 | an unknown strategy runs nothing and fails |
| Inject.StrategyTypesWholeText | src/swara_core/inject.py:125-138 | every strategy that runs something ends with the paste keystroke or with a typing command carrying the whole text |
| Inject.InjectOutcomes | src/swara_core/inject.py:76-100 | empty text fails; with the fallback and a working clipboard, non-empty text always succeeds; without the fallback, the result is the strategy's |
| Inject.SmartTextInjector.TypeText | src/swara_core/inject.py:148-174 | one `ydotool type` command with the delay and the escaped text; success exactly on exit code 0 |
| Inject.SmartTextInjector.DeleteSelection | src/swara_core/inject.py:176-184 | one Backspace command; its outcome is ignored |
| Inject.SmartTextInjector.PasteText | src/swara_core/inject.py:186-211 | without a clipboard, nothing happens and it fails; otherwise Ctrl+V is sent; when the keystroke runs the clipboard is restored and it succeeds; when it raises, the text stays and it fails |
| Inject.SmartTextInjector.ExecuteStrategy | src/swara_core/inject.py:120-146 | the result, the commands run and the clipboard are those of the strategy; "explicit" sends Backspace only with a selection |
| Inject.SmartTextInjector.FallbackPaste | src/swara_core/inject.py:213-231 | with a clipboard, the text is left on it, the fallback notice is sent and it succeeds; without one, a critical error is sent and it fails |
| Inject.SmartTextInjector.Inject | src/swara_core/inject.py:62-100 | empty text changes nothing and fails; "auto" uses the chosen strategy; the fallback runs exactly when the strategy failed and it is enabled, and only then is anything notified; the clipboard ends as it was or holding the text |
| Gemini.AnalyzeIntent | src/swara_core/gemini.py:108-131 | command exactly when a command keyword occurs in the lower-cased utterance; transform, then generate, only with a non-empty selection; dictation otherwise |
| Gemini.NoSelectionNoEditing | src/swara_core/gemini.py:124-131 | without a selection the intent is command or dictation |
| Gemini.AnalyzeIntentIgnoresCase | src/swara_core/gemini.py:117 | the intent of an utterance equals the intent of its lower-cased form |
| Gemini.KnowIsCommand | src/swara_core/gemini.py:49 | "know" contains the command keyword "now", so it is a command |
| Gemini.RewriteIsTransform | src/swara_core/gemini.py:120-128 | "rewrite" contains the generate keyword "write" but is a transform, since transform is checked first |
| Gemini.TransformText | src/swara_core/gemini.py:133-164 | the stripped reply tagged "transform"; on failure the original selection tagged "error" |
| Gemini.GenerateWithContext | src/swara_core/gemini.py:166-196 | the stripped reply tagged "generate"; on failure "" tagged "error" |
| Gemini.CleanDictation | src/swara_core/gemini.py:212-239 | the stripped reply tagged "dictation"; on failure the raw utterance tagged "error" |
| Gemini.RepliesAreStripped | src/swara_core/gemini.py:156 | for each of the three model handlers, a successful result neither starts nor ends with whitespace; a dictation result is already stripped |
| Gemini.ParsePadDigits | src/swara_core/gemini.py:205-207 | a zero-padded field reads back as its number, reduced to the field width |
| Gemini.FormatDateRoundTrip | src/swara_core/gemini.py:205 | the date text is `YYYY-MM-DD`, and each field reads back as the clock's |
| Gemini.FormatTimeRoundTrip | src/swara_core/gemini.py:207 | the time text is `HH:MM`, and each field reads back as the clock's |
| Gemini.ExecuteCommand | src/swara_core/gemini.py:198-210 | "date" is checked before "time"; without either the command comes back unchanged; always tagged "command" |
| Gemini.CommandResultNonEmpty | src/swara_core/gemini.py:198-210 | a command's result is never empty for a non-empty utterance |
| Gemini.Process | src/swara_core/gemini.py:76-106 | the result is tagged with the intent, or "error" exactly when the model failed for a non-command; each failure falls back as its handler does; commands are answered locally |
| Gemini.CommandsIgnoreTheModel | src/swara_core/gemini.py:103-104 | for a command, the model's reply makes no difference |

## Left out

- The subprocess calls themselves (`wl-paste`, `ydotool`, `hyprctl`, `notify-send`), their timeouts, and the `time.sleep` delays. Each run is an oracle outcome, and the delays have no effect on the modelled state.
- What `ydotool` does with the escaped text, and what the focused application does with the keystrokes. The simulated copy's effect is the oracle `KeyPress`.
- JSON decoding of `hyprctl` output. The oracle gives the decoded object, or `None` when the output is not an object. The object is a map from strings to strings, so a `"class": null` entry (for which the window query returns `None`) is not expressible; the strategy choice treats `None` and `""` alike, so it is unaffected.
- Logging, YAML and dotenv loading, the default configuration, the singletons and the `get_*`/`inject_text`/`process_with_gemini` wrappers. The settings are constructor arguments (`maxContextLength`, `typingDelayMs`, `fallbackToClipboard`, `previewLength`, the notifier's `enabled` and `duration`).
- Inject.SmartTextInjector.TypeText: the delay is the integer `typingDelayMs`; the float-seconds to integer-milliseconds conversion of `typing_delay` is not modelled.
- The `output.injection_strategy` setting is read by the injector's constructor but never used, so it is not part of the model.
- Inject.SmartTextInjector.ExecuteStrategy: the `except Exception` around the strategies is not modelled. Every call inside it catches its own exceptions, and an interrupted `sleep` raises `KeyboardInterrupt`, which that handler does not catch, so it cannot be reached.
- The Gemini SDK set-up, the API-key check in the processor's constructor, and the prompt texts. The reply oracle stands for the model's answer to whichever prompt the handler sends.
- The error notifications the handlers send on a model failure. They carry the exception text, which is not modelled.
- Gemini.Process: the `processing` notification that `process` sends first (gemini.py:89) is not modelled; notifications never change the result.
- The other status notifications are sent outside the modelled core: `transcribing` by transcribe.py:53, `formatting` by punctuation.py:58, and `recording` and the like by the command-line scripts.
- Gemini.FormatDate: years below 1000 are padded to four digits. What `%Y` prints for them depends on the platform's `strftime`.
- PyStr.Lower: only ASCII letters are lower-cased; Python's full Unicode case mapping is not modelled. `strip()` removes the characters Python's `str.isspace()` accepts.
- Config.PathSetting: `Path(...).expanduser()` is not modelled. The configured string is returned as it is, and a `None` or non-string entry (which makes `Path` raise) gives `None`.
- Context.Context.constructor: `time.time()` is the parameter `now`.
- The `maxContextLength`, `previewLength` and `duration` settings are natural numbers. Negative values from the configuration are not modelled.
- The audio recording, transcription and punctuation modules, and the two command-line scripts, are not part of this model.
