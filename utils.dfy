/**
 * `escape_for_shell`: the escaper applied to text before it is handed to the
 * typing tool. The source runs `text = text.replace(target, replacement)` once per entry
 * of an ordered replacement table; this module proves that the sequence of
 * whole-string replacements equals one left-to-right per-character map.
 */
module Utils {

  /** `s.replace(target, replacement)` for a one-character `target`: every occurrence is replaced. */
  function Replace(s: string, target: char, replacement: string): string {
    if s == [] then [] else (if s[0] == target then replacement else [s[0]]) + Replace(s[1..], target, replacement)
  }

  /** The replacement table, in the order the source iterates it. */
  const Replacements: seq<(char, string)> :=
    [('\\', "\\\\"), ('"', "\\\""), ('$', "\\$"), ('`', "\\`"), ('\n', "\\n")]

  /** Applying the replacements of `rs` one after another to the whole string. */
  function ReplaceAll(s: string, rs: seq<(char, string)>): string
    decreases |rs|
  {
    if rs == [] then s else ReplaceAll(Replace(s, rs[0].0, rs[0].1), rs[1..])
  }

  /** The five characters the escaper rewrites. */
  predicate IsSpecial(c: char) {
    c == '\\' || c == '"' || c == '$' || c == '`' || c == '\n'
  }

  /** What one character becomes: a backslash and the character ('n' for a newline), or itself. */
  function EscapeChar(c: char): (r: string)
    ensures IsSpecial(c) ==> |r| == 2 && r[0] == '\\'
    ensures !IsSpecial(c) ==> r == [c]
  {
    if c == '\n' then "\\n" else if IsSpecial(c) then ['\\', c] else [c]
  }

  /** The reference definition: the per-character map, applied left to right. */
  function Escaped(s: string): string {
    if s == [] then [] else EscapeChar(s[0]) + Escaped(s[1..])
  }

  function CountSpecial(s: string): nat {
    if s == [] then 0 else (if IsSpecial(s[0]) then 1 else 0) + CountSpecial(s[1..])
  }

  /**
   * `escape_for_shell(text)`: one pass of `replace` per table entry, in order.
   * The result is the per-character escape of `text`.
   */
  method EscapeForShell(text: string) returns (r: string)
    ensures r == Escaped(text)
  {
    r := text;
    var i := 0;
    while i < |Replacements|
      invariant 0 <= i <= |Replacements|
      invariant ReplaceAll(r, Replacements[i..]) == ReplaceAll(text, Replacements)
    {
      assert Replacements[i..][1..] == Replacements[i + 1..];
      r := Replace(r, Replacements[i].0, Replacements[i].1);
      i := i + 1;
    }
    SequentialIsPerCharacter(text);
  }

  // ---------------------------------------------------------------------------
  // Sequential replacement equals the per-character map
  // ---------------------------------------------------------------------------

  lemma {:induction false} ReplaceAppend(a: string, b: string, target: char, replacement: string)
    ensures Replace(a + b, target, replacement) == Replace(a, target, replacement) + Replace(b, target, replacement)
  {
    if a == [] {
      assert a + b == b;
    } else {
      assert (a + b)[0] == a[0] && (a + b)[1..] == a[1..] + b;
      ReplaceAppend(a[1..], b, target, replacement);
    }
  }

  lemma {:induction false} ReplaceAllAppend(a: string, b: string, rs: seq<(char, string)>)
    ensures ReplaceAll(a + b, rs) == ReplaceAll(a, rs) + ReplaceAll(b, rs)
    decreases |rs|
  {
    if rs != [] {
      ReplaceAppend(a, b, rs[0].0, rs[0].1);
      ReplaceAllAppend(Replace(a, rs[0].0, rs[0].1), Replace(b, rs[0].0, rs[0].1), rs[1..]);
    }
  }

  /** A string without `target` is left as it is by `replace`. */
  lemma {:induction false} ReplaceAbsent(s: string, target: char, replacement: string)
    requires target !in s
    ensures Replace(s, target, replacement) == s
  {
    if s != [] {
      assert s == [s[0]] + s[1..];
      ReplaceAbsent(s[1..], target, replacement);
    }
  }

  lemma ReplaceSingle(c: char, target: char, replacement: string)
    ensures Replace([c], target, replacement) == if c == target then replacement else [c]
  {
    assert [c][1..] == [];
  }

  /** Unfolds `ReplaceAll` over a table of five entries. */
  lemma ReplaceAllFive(s: string, rs: seq<(char, string)>)
    requires |rs| == 5
    ensures ReplaceAll(s, rs) ==
      var s1 := Replace(s, rs[0].0, rs[0].1);
      var s2 := Replace(s1, rs[1].0, rs[1].1);
      var s3 := Replace(s2, rs[2].0, rs[2].1);
      var s4 := Replace(s3, rs[3].0, rs[3].1);
      Replace(s4, rs[4].0, rs[4].1)
  {
    var s1 := Replace(s, rs[0].0, rs[0].1);
    var s2 := Replace(s1, rs[1].0, rs[1].1);
    var s3 := Replace(s2, rs[2].0, rs[2].1);
    var s4 := Replace(s3, rs[3].0, rs[3].1);
    assert rs[1..][0] == rs[1] && rs[1..][1..] == rs[2..];
    assert rs[2..][0] == rs[2] && rs[2..][1..] == rs[3..];
    assert rs[3..][0] == rs[3] && rs[3..][1..] == rs[4..];
    assert rs[4..][0] == rs[4] && rs[4..][1..] == [];
    assert ReplaceAll(s, rs) == ReplaceAll(s1, rs[1..]);
    assert ReplaceAll(s1, rs[1..]) == ReplaceAll(s2, rs[2..]);
    assert ReplaceAll(s2, rs[2..]) == ReplaceAll(s3, rs[3..]);
    assert ReplaceAll(s3, rs[3..]) == ReplaceAll(s4, rs[4..]);
  }

  /** The table maps each single character to its escape. */
  lemma EscapeOneCharacter(c: char)
    ensures ReplaceAll([c], Replacements) == EscapeChar(c)
  {
    ReplaceAllFive([c], Replacements);
    var s1 := Replace([c], '\\', "\\\\");
    var s2 := Replace(s1, '"', "\\\"");
    var s3 := Replace(s2, '$', "\\$");
    var s4 := Replace(s3, '`', "\\`");
    var s5 := Replace(s4, '\n', "\\n");
    ReplaceSingle(c, '\\', "\\\\");
    if c == '\\' {
      ReplaceAbsent(s1, '"', "\\\""); ReplaceAbsent(s2, '$', "\\$");
      ReplaceAbsent(s3, '`', "\\`"); ReplaceAbsent(s4, '\n', "\\n");
    } else {
      ReplaceSingle(c, '"', "\\\"");
      if c == '"' {
        ReplaceAbsent(s2, '$', "\\$"); ReplaceAbsent(s3, '`', "\\`"); ReplaceAbsent(s4, '\n', "\\n");
      } else {
        ReplaceSingle(c, '$', "\\$");
        if c == '$' {
          ReplaceAbsent(s3, '`', "\\`"); ReplaceAbsent(s4, '\n', "\\n");
        } else {
          ReplaceSingle(c, '`', "\\`");
          if c == '`' {
            ReplaceAbsent(s4, '\n', "\\n");
          } else {
            ReplaceSingle(c, '\n', "\\n");
          }
        }
      }
    }
  }

  /**
   * Backslash is replaced first, so the backslashes that later entries insert
   * are never doubled: the sequential replacement is exactly the per-character map.
   */
  lemma {:induction false} SequentialIsPerCharacter(s: string)
    ensures ReplaceAll(s, Replacements) == Escaped(s)
  {
    if s != [] {
      assert s == [s[0]] + s[1..];
      ReplaceAllAppend([s[0]], s[1..], Replacements);
      EscapeOneCharacter(s[0]);
      SequentialIsPerCharacter(s[1..]);
    }
  }

  /**
   * The order matters: with the backslash entry moved to the end, the
   * backslash inserted for a double quote would itself be doubled.
   */
  lemma BackslashLastWouldDouble()
    ensures ReplaceAll("\"", Replacements[1..] + [Replacements[0]]) == "\\\\\""
    ensures Escaped("\"") == "\\\""
  {
    var rs := Replacements[1..] + [Replacements[0]];
    assert rs == [('"', "\\\""), ('$', "\\$"), ('`', "\\`"), ('\n', "\\n"), ('\\', "\\\\")];
    ReplaceAllFive("\"", rs);
    var s1: string := "\\\"";
    ReplaceSingle('"', '"', "\\\"");
    ReplaceAbsent(s1, '$', "\\$");
    ReplaceAbsent(s1, '`', "\\`");
    ReplaceAbsent(s1, '\n', "\\n");
    assert s1 == ['\\'] + ['"'];
    ReplaceAppend(['\\'], ['"'], '\\', "\\\\");
    ReplaceSingle('\\', '\\', "\\\\");
    ReplaceSingle('"', '\\', "\\\\");
  }

  // ---------------------------------------------------------------------------
  // Properties of the escape
  // ---------------------------------------------------------------------------

  /** The output grows by one character per special character of the input. */
  lemma {:induction false} EscapedLength(s: string)
    ensures |Escaped(s)| == |s| + CountSpecial(s)
  {
    if s != [] { EscapedLength(s[1..]); }
  }

  /** The output never contains a raw newline. */
  lemma {:induction false} EscapedHasNoNewline(s: string)
    ensures '\n' !in Escaped(s)
  {
    if s != [] {
      EscapedHasNoNewline(s[1..]);
      assert '\n' !in EscapeChar(s[0]);
    }
  }

  /** Text with none of the five special characters is returned unchanged. */
  lemma {:induction false} EscapedPlainUnchanged(s: string)
    requires forall i :: 0 <= i < |s| ==> !IsSpecial(s[i])
    ensures Escaped(s) == s
  {
    if s != [] {
      EscapedPlainUnchanged(s[1..]);
      assert s == [s[0]] + s[1..];
    }
  }

  /** The inverse of the escape: a backslash takes the next character literally, and `\n` reads as a newline. */
  function Unescape(s: string): string {
    if |s| >= 2 && s[0] == '\\' then
      [if s[1] == 'n' then '\n' else s[1]] + Unescape(s[2..])
    else if s == [] then []
    else [s[0]] + Unescape(s[1..])
  }

  /** Escaping loses nothing: unescaping gives back the original text. */
  lemma {:induction false} UnescapeEscaped(s: string)
    ensures Unescape(Escaped(s)) == s
  {
    if s != [] {
      var e := EscapeChar(s[0]);
      var rest := Escaped(s[1..]);
      assert Escaped(s) == e + rest;
      UnescapeEscaped(s[1..]);
      if IsSpecial(s[0]) {
        assert (e + rest)[2..] == rest;
      } else {
        assert (e + rest)[1..] == rest;
      }
      assert s == [s[0]] + s[1..];
    }
  }
}
