/**
 * The intent router: classify an utterance by keyword (command, then, with a
 * selection, transform or generate, else dictation), send it to the handler
 * for that intent, and fall back per handler when the language model fails.
 *
 * Each model call is an oracle: `reply` is the text of the response, or
 * `None` when the call (or reading its text) raised. The clock is the
 * parameter `now`.
 */
module Gemini {
  import opened Wrappers
  import opened PyStr
  import Context

  const TransformKeywords: seq<string> :=
    ["rewrite", "rephrase", "make", "convert", "change", "fix", "improve",
     "professional", "casual", "formal", "summarize", "expand", "simplify", "translate"]

  const GenerateKeywords: seq<string> :=
    ["write", "create", "generate", "based on", "action items", "summary", "list", "bullet points"]

  const CommandKeywords: seq<string> := ["insert", "add", "current", "today", "now"]

  /** What the user wants done with the utterance. */
  datatype Intent = Transform | Generate | Command | Dictation

  /** The action a result is tagged with: the handler that produced it, or an error fallback. */
  datatype Action = Done(intent: Intent) | Error

  /** The `(processed_text, action_type)` pair `process` returns. */
  datatype Processed = Processed(text: string, action: Action)

  /** Some keyword of the list occurs in `s`. */
  predicate Mentions(keywords: seq<string>, s: string) {
    exists k :: 0 <= k < |keywords| && Contains(s, keywords[k])
  }

  /**
   * `_analyze_intent`: a command keyword anywhere in the lower-cased
   * utterance wins, with or without a selection; with a (non-empty)
   * selection a transform keyword comes next, then a generate keyword;
   * everything else is dictation. Keywords match as substrings.
   */
  function AnalyzeIntent(voice: string, selected: Option<string>): (r: Intent)
    ensures r == Command <==> Mentions(CommandKeywords, Lower(voice))
    ensures r == Transform <==>
              && !Mentions(CommandKeywords, Lower(voice))
              && Truthy(selected)
              && Mentions(TransformKeywords, Lower(voice))
    ensures r == Generate <==>
              && !Mentions(CommandKeywords, Lower(voice))
              && Truthy(selected)
              && !Mentions(TransformKeywords, Lower(voice))
              && Mentions(GenerateKeywords, Lower(voice))
  {
    var voiceLower := Lower(voice);
    if AnyIn(CommandKeywords, voiceLower) then Command
    else if Truthy(selected) && AnyIn(TransformKeywords, voiceLower) then Transform
    else if Truthy(selected) && AnyIn(GenerateKeywords, voiceLower) then Generate
    else Dictation
  }

  /** Without a selection (none, or empty) the intent is only ever command or dictation. */
  lemma {:induction false} NoSelectionNoEditing(voice: string, selected: Option<string>)
    requires !Truthy(selected)
    ensures AnalyzeIntent(voice, selected) in {Command, Dictation}
  {
    var r := AnalyzeIntent(voice, selected);
    assert r != Transform && r != Generate;
  }

  /** Classification ignores (ASCII) case. */
  lemma {:induction false} AnalyzeIntentIgnoresCase(voice: string, selected: Option<string>)
    ensures AnalyzeIntent(Lower(voice), selected) == AnalyzeIntent(voice, selected)
  {
    LowerIdempotent(voice);
  }

  /** "know" contains the command keyword "now", so it is a command, selection or not. */
  lemma KnowIsCommand(selected: Option<string>)
    ensures AnalyzeIntent("know", selected) == Command
  {
    assert Lower("know") == "know";
    assert OccursAt(CommandKeywords[4], "know", 1);
  }

  /**
   * "rewrite" also contains the generate keyword "write", but with a
   * selection it is a transform, because transform is checked first.
   */
  lemma RewriteIsTransform(selected: Option<string>)
    requires Truthy(selected)
    ensures Mentions(GenerateKeywords, "rewrite")
    ensures AnalyzeIntent("rewrite", selected) == Transform
  {
    var voice := "rewrite";
    assert Lower(voice) == voice;
    // Each command keyword has a letter "rewrite" lacks.
    var missing := [1, 0, 0, 1, 0];
    forall k | 0 <= k < |CommandKeywords| ensures !Contains(voice, CommandKeywords[k]) {
      MissingCharNotContained(voice, CommandKeywords[k], missing[k]);
    }
    assert OccursAt(TransformKeywords[0], voice, 0);
    assert OccursAt(GenerateKeywords[0], voice, 2);
  }

  // ---------------------------------------------------------------------------
  // The handlers
  // ---------------------------------------------------------------------------

  /** `_transform_text`: the stripped reply; when the model fails, the original selection, tagged as an error. */
  function TransformText(text: string, reply: Option<string>): (r: Processed)
    ensures r.action.Error? <==> reply.None?
    ensures reply.Some? ==> r == Processed(Strip(reply.value), Done(Transform))
    ensures reply.None? ==> r.text == text
  {
    if reply.Some? then Processed(Strip(reply.value), Done(Transform)) else Processed(text, Error)
  }

  /** `_generate_with_context`: the stripped reply; when the model fails, nothing, tagged as an error. */
  function GenerateWithContext(reply: Option<string>): (r: Processed)
    ensures r.action.Error? <==> reply.None?
    ensures reply.Some? ==> r == Processed(Strip(reply.value), Done(Generate))
    ensures reply.None? ==> r.text == ""
  {
    if reply.Some? then Processed(Strip(reply.value), Done(Generate)) else Processed("", Error)
  }

  /** `_clean_dictation`: the stripped reply; when the model fails, the raw utterance, tagged as an error. */
  function CleanDictation(text: string, reply: Option<string>): (r: Processed)
    ensures r.action.Error? <==> reply.None?
    ensures reply.Some? ==> r == Processed(Strip(reply.value), Done(Dictation))
    ensures reply.None? ==> r.text == text
  {
    if reply.Some? then Processed(Strip(reply.value), Done(Dictation)) else Processed(text, Error)
  }

  /** A successful reply never carries surrounding whitespace, whichever handler produced it. */
  lemma {:induction false} RepliesAreStripped(text: string, reply: string)
    ensures var r := TransformText(text, Some(reply)).text;
            r == "" || (!IsSpace(r[0]) && !IsSpace(r[|r| - 1]))
    ensures var r := GenerateWithContext(Some(reply)).text;
            r == "" || (!IsSpace(r[0]) && !IsSpace(r[|r| - 1]))
    ensures var r := CleanDictation(text, Some(reply)).text;
            r == "" || (!IsSpace(r[0]) && !IsSpace(r[|r| - 1]))
    ensures Strip(CleanDictation(text, Some(reply)).text) == CleanDictation(text, Some(reply)).text
  {
    StripIsTrimmedInfix(reply);
    StripIdempotent(reply);
  }

  // ---------------------------------------------------------------------------
  // Local commands: the date and the time
  // ---------------------------------------------------------------------------

  /** The clock reading `datetime.now()` gives, to the minute. */
  datatype DateTime = DateTime(year: int, month: int, day: int, hour: int, minute: int)

  /** The ranges a `datetime` keeps its fields in. */
  predicate ValidDateTime(t: DateTime) {
    1 <= t.year <= 9999 && 1 <= t.month <= 12 && 1 <= t.day <= 31 && 0 <= t.hour <= 23 && 0 <= t.minute <= 59
  }

  function Pow10(w: nat): (p: nat)
    ensures p >= 1
  {
    if w == 0 then 1 else 10 * Pow10(w - 1)
  }

  /** The last `w` decimal digits of `n`, zero-padded: what `%02d`-style fields print for `n < 10^w`. */
  function PadDigits(n: nat, w: nat): (r: string)
    ensures |r| == w && AllDigits(r)
  {
    if w == 0 then [] else PadDigits(n / 10, w - 1) + [DigitChar(n % 10)]
  }

  /** Reading the padded digits back gives the number, reduced to `w` digits. */
  lemma {:induction false} ParsePadDigits(n: nat, w: nat)
    ensures ParseNat(PadDigits(n, w)) == n % Pow10(w)
  {
    if w > 0 {
      var r := PadDigits(n, w);
      assert r[..w - 1] == PadDigits(n / 10, w - 1);
      ParsePadDigits(n / 10, w - 1);
      DivModPow10(n, w);
    }
  }

  /** A number that fits in `w` digits reads back unchanged. */
  lemma {:induction false} ParsePadDigitsFits(n: nat, w: nat)
    requires n < Pow10(w)
    ensures ParseNat(PadDigits(n, w)) == n
  {
    ParsePadDigits(n, w);
    ModUnique(n, Pow10(w), 0, n);
  }

  lemma DivModPow10(n: nat, w: nat)
    requires w > 0
    ensures n % Pow10(w) == 10 * ((n / 10) % Pow10(w - 1)) + n % 10
  {
    var p := Pow10(w - 1);
    var q := n / 10;
    assert n == 10 * q + n % 10;
    assert q == p * (q / p) + q % p;
    assert n == (10 * p) * (q / p) + (10 * (q % p) + n % 10);
    ModUnique(n, 10 * p, q / p, 10 * (q % p) + n % 10);
  }

  /** The remainder is the only one in range. */
  lemma ModUnique(n: int, m: int, a: int, b: int)
    requires m > 0 && 0 <= b < m && n == m * a + b
    ensures n % m == b
  {
    var d := n / m;
    var r := n % m;
    assert n == m * d + r;
    if a > d {
      assert m * (a - d) == m * a - m * d;
      MulAtLeast(m, a - d);
    } else if a < d {
      assert m * (d - a) == m * d - m * a;
      MulAtLeast(m, d - a);
    }
  }

  lemma {:induction false} MulAtLeast(m: int, k: int)
    requires m > 0 && k >= 1
    ensures m * k >= m
  {
    if k > 1 {
      MulAtLeast(m, k - 1);
      assert m * k == m * (k - 1) + m;
    }
  }

  /** `strftime("%Y-%m-%d")`. */
  function FormatDate(t: DateTime): string
    requires ValidDateTime(t)
  {
    PadDigits(t.year, 4) + "-" + PadDigits(t.month, 2) + "-" + PadDigits(t.day, 2)
  }

  /** `strftime("%H:%M")`. */
  function FormatTime(t: DateTime): string
    requires ValidDateTime(t)
  {
    PadDigits(t.hour, 2) + ":" + PadDigits(t.minute, 2)
  }

  /** The date text is `YYYY-MM-DD`, and each field reads back as the clock's. */
  lemma {:induction false} FormatDateRoundTrip(t: DateTime)
    requires ValidDateTime(t)
    ensures var s := FormatDate(t);
            && |s| == 10 && s[4] == '-' && s[7] == '-'
            && AllDigits(s[..4]) && AllDigits(s[5..7]) && AllDigits(s[8..])
            && ParseNat(s[..4]) == t.year && ParseNat(s[5..7]) == t.month && ParseNat(s[8..]) == t.day
  {
    var y, m, d := PadDigits(t.year, 4), PadDigits(t.month, 2), PadDigits(t.day, 2);
    assert Pow10(2) == 100 && Pow10(4) == 10000;
    ParsePadDigitsFits(t.year, 4);
    ParsePadDigitsFits(t.month, 2);
    ParsePadDigitsFits(t.day, 2);
    var s := FormatDate(t);
    assert s == y + ['-'] + m + ['-'] + d;
    Fields(y, '-', m, '-', d);
    assert s[..4] == y && s[5..7] == m && s[8..] == d;
  }

  /** Three fields joined by two separators come apart at the separators again. */
  lemma Fields(a: string, sep1: char, b: string, sep2: char, c: string)
    ensures var s := a + [sep1] + b + [sep2] + c;
            && s[..|a|] == a && s[|a|] == sep1
            && s[|a| + 1..|a| + 1 + |b|] == b && s[|a| + 1 + |b|] == sep2
            && s[|a| + 2 + |b|..] == c
  {
  }

  /** The time text is `HH:MM`, and each field reads back as the clock's. */
  lemma {:induction false} FormatTimeRoundTrip(t: DateTime)
    requires ValidDateTime(t)
    ensures var s := FormatTime(t);
            && |s| == 5 && s[2] == ':' && AllDigits(s[..2]) && AllDigits(s[3..])
            && ParseNat(s[..2]) == t.hour && ParseNat(s[3..]) == t.minute
  {
    var h, m := PadDigits(t.hour, 2), PadDigits(t.minute, 2);
    assert Pow10(2) == 100;
    ParsePadDigitsFits(t.hour, 2);
    ParsePadDigitsFits(t.minute, 2);
    var s := FormatTime(t);
    assert s[..2] == h && s[3..] == m;
  }

  /**
   * `_execute_command`: "date" anywhere in the lower-cased command gives the
   * date, otherwise "time" gives the time, otherwise the command comes back
   * unchanged; all three are tagged as commands.
   */
  function ExecuteCommand(command: string, now: DateTime): (r: Processed)
    requires ValidDateTime(now)
    ensures r.action == Done(Command)
    ensures Contains(Lower(command), "date") ==> r.text == FormatDate(now)
    ensures !Contains(Lower(command), "date") && Contains(Lower(command), "time") ==> r.text == FormatTime(now)
    ensures !Contains(Lower(command), "date") && !Contains(Lower(command), "time") ==> r.text == command
  {
    var commandLower := Lower(command);
    if Contains(commandLower, "date") then Processed(FormatDate(now), Done(Command))
    else if Contains(commandLower, "time") then Processed(FormatTime(now), Done(Command))
    else Processed(command, Done(Command))
  }

  /** A command's result is never empty: a date, a time, or (for a non-empty utterance) the utterance itself. */
  lemma {:induction false} CommandResultNonEmpty(command: string, now: DateTime)
    requires ValidDateTime(now) && command != ""
    ensures ExecuteCommand(command, now).text != ""
  {
    FormatDateRoundTrip(now);
    FormatTimeRoundTrip(now);
  }

  // ---------------------------------------------------------------------------
  // The dispatch
  // ---------------------------------------------------------------------------

  /** The selection `process` works with: the context's, or none without a context. */
  function SelectedText(ctx: Context.Context?): (r: Option<string>)
    reads ctx
    ensures ctx == null ==> r.None?
    ensures ctx != null ==> r == ctx.selectedText
  {
    if ctx != null then ctx.selectedText else None
  }

  /**
   * `process`: classify, then route. The transform and generate handlers
   * are guarded by the selection as well as the intent; "command" goes to
   * `_execute_command`; everything else is cleaned as dictation. `reply` is
   * what the model answers to whichever prompt the chosen handler sends.
   */
  function Process(voice: string, ctx: Context.Context?, now: DateTime, reply: Option<string>): (r: Processed)
    requires ValidDateTime(now)
    reads ctx
    ensures var intent := AnalyzeIntent(voice, SelectedText(ctx));
            && (r.action == Done(intent) || (r.action == Error && reply.None?))
            && (r.action == Error <==> reply.None? && intent != Command)
            && (intent == Command ==> r == ExecuteCommand(voice, now))
            && (intent == Transform && reply.None? ==> r.text == SelectedText(ctx).value)
            && (intent == Generate && reply.None? ==> r.text == "")
            && (intent == Dictation && reply.None? ==> r.text == voice)
            && (reply.Some? && intent != Command ==> r.text == Strip(reply.value))
  {
    var selected := SelectedText(ctx);
    var intent := AnalyzeIntent(voice, selected);
    if intent == Transform && Truthy(selected) then TransformText(selected.value, reply)
    else if intent == Generate && Truthy(selected) then GenerateWithContext(reply)
    else if intent == Command then ExecuteCommand(voice, now)
    else CleanDictation(voice, reply)
  }

  /** Commands are answered locally: the model's reply, and whether it failed, make no difference. */
  lemma {:induction false} CommandsIgnoreTheModel(voice: string, ctx: Context.Context?, now: DateTime,
                                                  reply1: Option<string>, reply2: Option<string>)
    requires ValidDateTime(now) && Mentions(CommandKeywords, Lower(voice))
    ensures Process(voice, ctx, now, reply1) == Process(voice, ctx, now, reply2)
  {
    assert AnalyzeIntent(voice, SelectedText(ctx)) == Command;
  }
}
