/**
 * Context capture: what is selected, which application has focus, and a
 * backup of the clipboard, taken once at the start of an invocation; and the
 * best-effort restoration of that clipboard at the end.
 */
module Context {
  import opened Wrappers
  import opened PyStr
  import opened Desktop

  /** The snapshot `capture_context` returns. */
  class Context {
    var selectedText: Option<string>
    var selectionLength: int
    var activeWindow: Option<string>
    var clipboardBackup: Option<string>
    var timestamp: real

    /**
     * The dataclass constructor followed by `__post_init__`: a zero timestamp
     * becomes the current time `now`, and a non-empty selection overrides the
     * given length with its own.
     */
    constructor (selectedText: Option<string>, selectionLength: int, activeWindow: Option<string>,
                 clipboardBackup: Option<string>, timestamp: real, now: real)
      ensures this.selectedText == selectedText && this.activeWindow == activeWindow
      ensures this.clipboardBackup == clipboardBackup
      ensures this.timestamp == if timestamp == 0.0 then now else timestamp
      ensures this.selectionLength == if Truthy(selectedText) then |selectedText.value| else selectionLength
    {
      this.selectedText := selectedText;
      this.selectionLength := selectionLength;
      this.activeWindow := activeWindow;
      this.clipboardBackup := clipboardBackup;
      this.timestamp := timestamp;
      new;
      if this.timestamp == 0.0 {
        this.timestamp := now;
      }
      if Truthy(this.selectedText) {
        this.selectionLength := |this.selectedText.value|;
      }
    }
  }

  /** What one capture method produced: a return value, or an exception. */
  datatype Attempt = Returned(text: Option<string>) | Raised

  /** The attempt produced a selection: text whose stripped form is non-empty. */
  predicate Found(a: Attempt) {
    a.Returned? && a.text.Some? && Strip(a.text.value) != ""
  }

  /** The position of the first attempt that found a selection, or `|attempts|` when none did. */
  function FirstFound(attempts: seq<Attempt>): (k: nat)
    ensures k <= |attempts|
    ensures forall j :: 0 <= j < k ==> !Found(attempts[j])
    ensures k < |attempts| ==> Found(attempts[k])
  {
    if attempts == [] || Found(attempts[0]) then 0
    else
      var k := FirstFound(attempts[1..]);
      assert forall j :: 0 <= j < k ==> attempts[1..][j] == attempts[j + 1];
      k + 1
  }

  /**
   * The stripped text of the first attempt that found a selection, or `None`.
   * Earlier attempts win; attempts that raised count as finding nothing.
   */
  function FirstNonBlank(attempts: seq<Attempt>): (r: Option<string>)
    ensures r.Some? <==> exists i :: 0 <= i < |attempts| && Found(attempts[i])
    ensures r.Some? ==> r.value != "" && r.value == Strip(attempts[FirstFound(attempts)].text.value)
  {
    var k := FirstFound(attempts);
    if k < |attempts| then Some(Strip(attempts[k].text.value)) else None
  }

  /**
   * `_wl_paste_primary`: the tool's output only when it exited with 0 and
   * printed something; a timeout or a missing tool is no result, and any
   * other exception escapes to the caller.
   */
  function WlPastePrimary(run: ToolRun): (r: Attempt)
    ensures r.Raised? <==> run.Crashed?
    ensures (r.Returned? && r.text.Some?) <==> (run.Exited? && run.code == 0 && run.stdout != "")
    ensures r.Returned? && r.text.Some? ==> r.text.value == run.stdout
  {
    match run
    case Exited(code, out) => if code == 0 && out != "" then Returned(Some(out)) else Returned(None)
    case TimedOut => Returned(None)
    case NotFound => Returned(None)
    case Crashed => Raised
  }

  /**
   * `_get_active_window`: the "class" field of the decoded reply, "unknown"
   * when the field is absent, and `None` on a non-zero exit, undecodable
   * output or an exception.
   */
  function ActiveWindow(q: WindowQuery): (r: Option<string>)
    ensures r.Some? <==> q.WindowExited? && q.code == 0 && q.json.Some?
    ensures r.Some? && "class" in q.json.value ==> r.value == q.json.value["class"]
    ensures r.Some? && "class" !in q.json.value ==> r.value == "unknown"
  {
    match q
    case WindowExited(code, json) =>
      if code == 0 && json.Some? then
        Some(if "class" in json.value then json.value["class"] else "unknown")
      else None
    case WindowFailed => None
  }

  /**
   * `_simulate_copy` as a value: what it returns and what the clipboard holds
   * afterwards, given the clipboard before (`original`) and the outcome of the
   * copy keystroke.
   */
  function SimulateCopyOutcome(original: string, working: bool, key: KeyPress): (r: (Option<string>, string))
    // Nothing new was copied, without an exception: the clipboard is back to its original value.
    ensures working && key.Pressed? && r.0.None? ==> r.1 == original
    // Something new was copied: it is returned, and it stays on the clipboard.
    ensures r.0.Some? ==> r.0.value != "" && r.0.value != original && r.1 == r.0.value
    // ... and exactly when the keystroke copied non-empty text different from the original.
    ensures working && key.Pressed? && key.copied.Some? && key.copied.value != "" && key.copied.value != original ==>
      r == (key.copied, key.copied.value)
    ensures working && key.Pressed? && (key.copied.None? || key.copied.value == "" || key.copied.value == original) ==>
      r.0.None?
    // The keystroke raised after the clipboard was cleared: it stays cleared.
    ensures working && key.PressFailed? ==> r == (None, "")
    // No clipboard at all: nothing is found and nothing changes.
    ensures !working ==> r == (None, original)
  {
    if !working then (None, original)
    else match key
      case PressFailed => (None, "")
      case Pressed(copied) =>
        var newText := if copied.Some? then copied.value else "";
        if newText == "" || newText == original then (None, if original != "" then original else newText)
        else (Some(newText), newText)
  }

  /** The capture methods, in the order they are tried. */
  datatype CaptureMethod = WlPastePrimaryMethod | SimulateCopyMethod

  const CaptureMethods: seq<CaptureMethod> := [WlPastePrimaryMethod, SimulateCopyMethod]

  /** What each capture method would produce, started from the clipboard `original`. */
  function CaptureAttempts(wl: ToolRun, original: string, working: bool, key: KeyPress): seq<Attempt> {
    [WlPastePrimary(wl), Returned(SimulateCopyOutcome(original, working, key).0)]
  }

  /** The clipboard after selection capture: the simulated copy runs only when the primary selection found nothing. */
  function CaptureClipboard(wl: ToolRun, original: string, working: bool, key: KeyPress): string {
    if Found(WlPastePrimary(wl)) then original else SimulateCopyOutcome(original, working, key).1
  }

  /**
   * What selection capture leaves on the clipboard: the original, a newly
   * copied selection, or (when the copy keystroke raised) nothing. When the
   * simulated copy found the selection, that selection is what the later
   * backup records, not the clipboard the user had before.
   */
  lemma CaptureClipboardCases(wl: ToolRun, original: string, working: bool, key: KeyPress)
    ensures var after := CaptureClipboard(wl, original, working, key);
            || after == original
            || (working && key.PressFailed? && after == "")
            || (working && !Found(WlPastePrimary(wl)) && key.Pressed? && key.copied == Some(after) && after != original && after != "")
    ensures Found(WlPastePrimary(wl)) || !working ==> CaptureClipboard(wl, original, working, key) == original
  {
  }

  /** `capture_context`'s truncation: a selection longer than `limit` is cut to its first `limit` characters. */
  function TruncateSelection(selection: Option<string>, limit: nat): (r: Option<string>)
    ensures r.None? <==> selection.None?
    ensures r.Some? ==> |r.value| <= limit && r.value <= selection.value
    ensures r.Some? && |selection.value| > limit ==> |r.value| == limit
    ensures r.Some? && |selection.value| <= limit ==> r == selection
  {
    if Truthy(selection) && |selection.value| > limit then Some(selection.value[..limit]) else selection
  }

  /** What `restore_context` writes back: the backup, when there is a context and its backup is non-empty. */
  function BackupToRestore(current: Context?): Option<string>
    reads current
  {
    if current != null && Truthy(current.clipboardBackup) then current.clipboardBackup else None
  }

  /** The clipboard after a restoration that writes `backup` (if any). */
  function Restored(clipboard: string, backup: Option<string>, working: bool): (r: string)
    ensures backup.Some? && working ==> r == backup.value
    ensures backup.None? || !working ==> r == clipboard
  {
    if backup.Some? && working then backup.value else clipboard
  }

  /** Restoring twice leaves the clipboard as restoring once. */
  lemma RestoreIdempotent(clipboard: string, backup: Option<string>, working: bool)
    ensures Restored(Restored(clipboard, backup, working), backup, working) == Restored(clipboard, backup, working)
  {
  }

  /** `ContextManager`: the last captured context, the configured limit, and the clipboard it works on. */
  class ContextManager {
    var currentContext: Context?
    const maxContextLength: nat
    const clip: Clipboard

    constructor (maxContextLength: nat, clip: Clipboard)
      ensures currentContext == null && this.maxContextLength == maxContextLength && this.clip == clip
    {
      currentContext := null;
      this.maxContextLength := maxContextLength;
      this.clip := clip;
    }

    /**
     * `_simulate_copy`: back up the clipboard, clear it, send the copy
     * keystroke, and read the clipboard; when nothing new arrived, put the
     * original back. Every exception is caught and gives `None`.
     */
    method SimulateCopy(key: KeyPress) returns (r: Option<string>)
      modifies clip
      ensures (r, clip.contents) == SimulateCopyOutcome(old(clip.contents), clip.working, key)
    {
      if !clip.working {
        return None;                       // paste() raised before anything changed
      }
      var original := clip.contents;
      clip.contents := "";
      match key {
        case PressFailed =>
          return None;                     // the keystroke raised; the clipboard stays cleared
        case Pressed(copied) =>
          if copied.Some? {
            clip.contents := copied.value;
          }
      }
      var newText := clip.contents;
      if newText == "" || newText == original {
        if original != "" {
          clip.contents := original;
        }
        return None;
      }
      return Some(newText);
    }

    /**
     * `_quick_selection_capture`: try the capture methods in order and return
     * the stripped text of the first that finds a non-blank selection.
     */
    method QuickSelectionCapture(wl: ToolRun, key: KeyPress) returns (r: Option<string>)
      modifies clip
      ensures r == FirstNonBlank(CaptureAttempts(wl, old(clip.contents), clip.working, key))
      ensures clip.contents == CaptureClipboard(wl, old(clip.contents), clip.working, key)
    {
      ghost var attempts := CaptureAttempts(wl, clip.contents, clip.working, key);
      var i := 0;
      while i < |CaptureMethods|
        invariant 0 <= i <= |CaptureMethods|
        invariant forall j :: 0 <= j < i ==> !Found(attempts[j])
        invariant i < 2 ==> clip.contents == old(clip.contents)
        invariant i == 2 ==> clip.contents == SimulateCopyOutcome(old(clip.contents), clip.working, key).1
      {
        var a: Attempt;
        match CaptureMethods[i] {
          case WlPastePrimaryMethod =>
            a := WlPastePrimary(wl);
          case SimulateCopyMethod =>
            var text := SimulateCopy(key);
            a := Returned(text);
        }
        assert a == attempts[i];
        if Found(a) {
          return Some(Strip(a.text.value));
        }
        i := i + 1;
      }
      return None;
    }

    /**
     * `capture_context`: build an empty context, then fill its fields one by
     * one: the selection (captured first, then truncated), the active window,
     * and the clipboard backup, read after selection capture. The fields are
     * assigned after construction, so `selectionLength` stays 0.
     */
    method CaptureContext(wl: ToolRun, key: KeyPress, window: WindowQuery, now: real) returns (c: Context)
      modifies this, clip
      ensures fresh(c)
      ensures currentContext == c
      ensures c.selectionLength == 0 && c.timestamp == now
      ensures c.selectedText
           == TruncateSelection(FirstNonBlank(CaptureAttempts(wl, old(clip.contents), clip.working, key)), maxContextLength)
      ensures c.activeWindow == ActiveWindow(window)
      ensures clip.contents == CaptureClipboard(wl, old(clip.contents), clip.working, key)
      ensures c.clipboardBackup == if clip.working then Some(clip.contents) else None
    {
      c := new Context(None, 0, None, None, 0.0, now);
      var selection := QuickSelectionCapture(wl, key);
      if Truthy(selection) && |selection.value| > maxContextLength {
        selection := Some(selection.value[..maxContextLength]);
      }
      c.selectedText := selection;
      c.activeWindow := ActiveWindow(window);
      var backup := if clip.working then Some(clip.contents) else None;   // paste() raises without a clipboard
      c.clipboardBackup := backup;
      currentContext := c;
    }

    /** `restore_context`: write the backup back when there is a context and its backup is non-empty; failures are swallowed. */
    method RestoreContext()
      modifies clip
      ensures clip.contents == Restored(old(clip.contents), BackupToRestore(currentContext), clip.working)
    {
      if currentContext != null && Truthy(currentContext.clipboardBackup) {
        if clip.working {
          clip.contents := currentContext.clipboardBackup.value;
        }
      }
    }
  }
}
