/**
 * The text transforms applied to console-style blocks before they are
 * parsed: `clean_pycon` for `>>>` sessions, and the output filter that runs
 * before the IPython transformer. Regular expressions of the source are
 * written out as scans over the characters they inspect.
 */
module Pycon {
  import opened Text

  /** The characters Python's `\s` matches in a `str` pattern (those for which `str.isspace` holds). */
  predicate IsSpace(c: char)
  {
    c == ' ' || ('\t' <= c <= '\r') || ('\U{1c}' <= c <= '\U{1f}') || c == '\U{85}' || c == '\U{a0}'
    || c == '\U{1680}' || ('\U{2000}' <= c <= '\U{200a}') || c == '\U{2028}' || c == '\U{2029}'
    || c == '\U{202f}' || c == '\U{205f}' || c == '\U{3000}'
  }

  predicate IsDigit(c: char)
  {
    '0' <= c <= '9'
  }

  /** Length of the longest whitespace prefix of `t`: what a greedy `\s*` consumes. */
  function WsRun(t: string): (r: nat)
    ensures r <= |t|
    ensures forall i :: 0 <= i < r ==> IsSpace(t[i])
    ensures r == |t| || !IsSpace(t[r])
  {
    if |t| > 0 && IsSpace(t[0]) then 1 + WsRun(t[1..]) else 0
  }

  /** Length of the longest digit prefix of `t`: what a greedy `[0-9]*` consumes. */
  function DigitRun(t: string): (r: nat)
    ensures r <= |t|
    ensures forall i :: 0 <= i < r ==> IsDigit(t[i])
    ensures r == |t| || !IsDigit(t[r])
  {
    if |t| > 0 && IsDigit(t[0]) then 1 + DigitRun(t[1..]) else 0
  }

  /** Length of the longest run of `.` at the start of `t`. */
  function DotRun(t: string): (r: nat)
    ensures r <= |t|
    ensures forall i :: 0 <= i < r ==> t[i] == '.'
    ensures r == |t| || t[r] != '.'
  {
    if |t| > 0 && t[0] == '.' then 1 + DotRun(t[1..]) else 0
  }

  const BlankLine := "<BLANKLINE>"

  /**
   * `\s*<BLANKLINE>` matches at the start of `t`. Since `<` is not
   * whitespace, only the greedy whitespace run can be followed by the marker.
   */
  predicate BlanklineAt(t: string)
  {
    var w := WsRun(t);
    w + |BlankLine| <= |t| && t[w..w + |BlankLine|] == BlankLine
  }

  /** `\s*<BLANKLINE>` matched with `k` whitespace characters. */
  predicate SpacesThenMarker(t: string, k: int)
  {
    0 <= k && k + |BlankLine| <= |t| && (forall i :: 0 <= i < k ==> IsSpace(t[i])) && t[k..k + |BlankLine|] == BlankLine
  }

  /** The greedy reading of `\s*<BLANKLINE>` loses no match: some whitespace prefix followed by the marker exists exactly when the greedy one is followed by it. */
  lemma BlanklineAtExact(t: string)
    ensures BlanklineAt(t) <==> exists k :: SpacesThenMarker(t, k)
  {
    var w := WsRun(t);
    forall k | SpacesThenMarker(t, k)
      ensures k == w
    {
      assert t[k] == t[k..k + |BlankLine|][0] == '<';
    }
    if BlanklineAt(t) {
      assert SpacesThenMarker(t, w);
    }
  }

  /**
   * `re.sub(r"^\s*<BLANKLINE>", "", t, flags=re.MULTILINE)` on the rest `t`
   * of the text, where `lineStart` says whether `^` holds at its start (the
   * text begins there or the previous character is a newline). After a
   * removal the next character follows the marker's final `>`, so `^` does
   * not hold there.
   */
  function StripFrom(t: string, lineStart: bool): (r: string)
    ensures |r| <= |t|
    decreases |t|
  {
    if |t| == 0 then ""
    else if lineStart && BlanklineAt(t) then StripFrom(t[WsRun(t) + |BlankLine|..], false)
    else [t[0]] + StripFrom(t[1..], t[0] == '\n')
  }

  /** The `<BLANKLINE>` removal of `clean_pycon`. */
  function StripBlanklines(source: string): string
  {
    StripFrom(source, true)
  }

  /** Text without a `<` has nothing to remove. */
  lemma {:induction false} StripMarkerFree(t: string, lineStart: bool)
    requires '<' !in t
    ensures StripFrom(t, lineStart) == t
    decreases |t|
  {
    if |t| > 0 {
      var w := WsRun(t);
      if w + |BlankLine| <= |t| {
        assert t[w..w + |BlankLine|][0] == t[w];
        assert t[w] in t;
      }
      StripMarkerFree(t[1..], t[0] == '\n');
      assert t == [t[0]] + t[1..];
    }
  }

  lemma WsRunPrefix(w: string, rest: string)
    requires forall i :: 0 <= i < |w| ==> IsSpace(w[i])
    requires |rest| > 0 && !IsSpace(rest[0])
    ensures WsRun(w + rest) == |w|
    decreases |w|
  {
    if |w| > 0 {
      assert (w + rest)[1..] == w[1..] + rest;
      WsRunPrefix(w[1..], rest);
    }
  }

  /** A line holding only whitespace and `<BLANKLINE>` becomes empty, and the next line is scanned as a line start. */
  lemma BlanklineLineEmptied(w: string, rest: string)
    requires forall i :: 0 <= i < |w| ==> IsSpace(w[i])
    ensures StripFrom(w + BlankLine + "\n" + rest, true) == "\n" + StripFrom(rest, true)
  {
    var t := w + BlankLine + "\n" + rest;
    assert t == w + (BlankLine + "\n" + rest);
    WsRunPrefix(w, BlankLine + "\n" + rest);
    assert t[|w|..|w| + |BlankLine|] == BlankLine;
    assert BlanklineAt(t);
    var u := t[|w| + |BlankLine|..];
    assert StripFrom(t, true) == StripFrom(u, false);
    assert u == "\n" + rest;
    assert u[0] == '\n' && u[1..] == rest;
    assert StripFrom(u, false) == [u[0]] + StripFrom(u[1..], true);
  }

  /** The lines produced by the loop of `clean_pycon`, from the flag `inStatement` on. */
  function PyconLines(lines: seq<string>, inStatement: bool): (r: seq<string>)
    ensures |r| == |lines|
  {
    if |lines| == 0 then []
    else if StartsWith(lines[0], ">>> ") then [lines[0][4..]] + PyconLines(lines[1..], true)
    else if inStatement && StartsWith(lines[0], "... ") then [lines[0][4..]] + PyconLines(lines[1..], true)
    else [""] + PyconLines(lines[1..], false)
  }

  /** Line `i` continues a statement: the line before it opens one with `>>> `, or continues one with `... `. */
  predicate InStatement(lines: seq<string>, i: int)
    requires 0 <= i <= |lines|
    decreases i
  {
    i > 0 && (StartsWith(lines[i - 1], ">>> ") || (StartsWith(lines[i - 1], "... ") && InStatement(lines, i - 1)))
  }

  /** What becomes of line `i`: a prompt line or a continuation line inside a statement loses its four prompt characters; any other line is emptied. */
  function CleanLine(lines: seq<string>, i: int): string
    requires 0 <= i < |lines|
  {
    if StartsWith(lines[i], ">>> ") || (InStatement(lines, i) && StartsWith(lines[i], "... ")) then lines[i][4..] else ""
  }

  lemma {:induction false} PyconLinesFrom(lines: seq<string>, j: int, i: int)
    requires 0 <= j <= i < |lines|
    ensures PyconLines(lines[j..], InStatement(lines, j))[i - j] == CleanLine(lines, i)
    decreases i - j
  {
    assert lines[j..][0] == lines[j];
    if j < i {
      assert lines[j..][1..] == lines[j + 1..];
      PyconLinesFrom(lines, j + 1, i);
    }
  }

  /** The loop of `clean_pycon` treats every line as `CleanLine` says. */
  lemma PyconLinesAt(lines: seq<string>, i: int)
    requires 0 <= i < |lines|
    ensures PyconLines(lines, false)[i] == CleanLine(lines, i)
  {
    PyconLinesFrom(lines, 0, i);
    assert lines[0..] == lines;
  }

  /**
   * `clean_pycon`: returns the `<BLANKLINE>`-stripped source (not the
   * input) and the Python code made of its prompt and continuation lines.
   */
  method CleanPycon(source: string) returns (stripped: string, clean: string)
    ensures stripped == StripBlanklines(source)
    ensures clean == Join(PyconLines(Split(stripped, '\n'), false), "\n")
  {
    stripped := StripBlanklines(source);
    var cleanLines := CleanLines(Split(stripped, '\n'));
    clean := Join(cleanLines, "\n");
  }

  /** One more line of the loop: its cleaned text comes first, then the rest under the new flag. */
  lemma PyconLinesNext(lines: seq<string>, i: int, inStatement: bool)
    requires 0 <= i < |lines|
    ensures var keep := StartsWith(lines[i], ">>> ") || (inStatement && StartsWith(lines[i], "... "));
      PyconLines(lines[i..], inStatement) == [if keep then lines[i][4..] else ""] + PyconLines(lines[i + 1..], keep)
  {
    assert lines[i..][0] == lines[i];
    assert lines[i..][1..] == lines[i + 1..];
  }

  /** The loop of `clean_pycon` over the lines of the stripped source. */
  method CleanLines(lines: seq<string>) returns (cleanLines: seq<string>)
    ensures cleanLines == PyconLines(lines, false)
  {
    cleanLines := [];
    var inStatement := false;
    for i := 0 to |lines|
      invariant cleanLines + PyconLines(lines[i..], inStatement) == PyconLines(lines, false)
    {
      var line := lines[i];
      PyconLinesNext(lines, i, inStatement);
      ghost var keep := StartsWith(line, ">>> ") || (inStatement && StartsWith(line, "... "));
      ghost var before := cleanLines;
      ghost var rest := PyconLines(lines[i + 1..], keep);
      if StartsWith(line, ">>> ") {
        inStatement := true;
        cleanLines := cleanLines + [line[4..]];
      } else if inStatement && StartsWith(line, "... ") {
        cleanLines := cleanLines + [line[4..]];
      } else {
        inStatement := false;
        cleanLines := cleanLines + [""];
      }
      assert inStatement == keep;
      assert cleanLines + rest == before + ([if keep then line[4..] else ""] + rest);
    }
    assert lines[|lines|..] == [];
  }

  /**
   * The cleaned code has as many lines as the stripped source, and line `i`
   * of it is what `CleanLine` makes of line `i`: names found in the clean
   * code keep the line numbers of the stripped source.
   */
  lemma CleanPyconLines(stripped: string)
    ensures var lines := Split(stripped, '\n');
      var cleanLines := Split(Join(PyconLines(lines, false), "\n"), '\n');
      && |cleanLines| == |lines|
      && forall i :: 0 <= i < |lines| ==> cleanLines[i] == CleanLine(lines, i)
  {
    var lines := Split(stripped, '\n');
    var out := PyconLines(lines, false);
    forall i | 0 <= i < |out| ensures '\n' !in out[i] && out[i] == CleanLine(lines, i) {
      PyconLinesAt(lines, i);
      if StartsWith(lines[i], ">>> ") || (InStatement(lines, i) && StartsWith(lines[i], "... ")) {
        assert forall c :: c in lines[i][4..] ==> c in lines[i];
      }
    }
    SplitJoin(out, '\n');
  }

  /** `re.match(r"^In \[[0-9]+\]: ", line)`: an IPython input prompt. */
  predicate IsPrompt(line: string)
  {
    StartsWith(line, "In [") && var d := DigitRun(line[4..]); d >= 1 && StartsWith(line[4 + d..], "]: ")
  }

  /** `re.match(r"^\s*\.*\.\.\.: ", line)`: an IPython continuation prompt of three or more dots. */
  predicate IsContinuation(line: string)
  {
    var t := line[WsRun(line)..];
    var d := DotRun(t);
    d >= 3 && StartsWith(t[d..], ": ")
  }

  /** `re.match(r"^\s*#", line)`: a comment line. */
  predicate IsComment(line: string)
  {
    var t := line[WsRun(line)..];
    |t| > 0 && t[0] == '#'
  }

  /** Lines `_exclude_ipython_output` keeps when it filters. */
  predicate KeepIPythonLine(line: string)
  {
    IsPrompt(line) || IsContinuation(line) || IsComment(line)
  }

  /** A line the leading `(\s*(#[^\n]*)?\n)*` of the prompt test may pass over: blank, or a comment. */
  predicate IsBlankOrComment(line: string)
  {
    WsRun(line) == |line| || IsComment(line)
  }

  /**
   * `re.match(r"^(\s*(#[^\n]*)?\n)*In \[[0-9]+\]: ", source)` on the lines
   * of the source: the first line that is neither blank nor a comment is an
   * input prompt.
   */
  predicate LeadsWithPrompt(lines: seq<string>)
  {
    |lines| > 0 && (if IsBlankOrComment(lines[0]) then LeadsWithPrompt(lines[1..]) else IsPrompt(lines[0]))
  }

  /** The prompt test holds exactly when some line is a prompt and every line before it is blank or a comment. */
  lemma {:induction false} LeadsWithPromptExact(lines: seq<string>)
    ensures LeadsWithPrompt(lines) <==>
      exists k :: 0 <= k < |lines| && (forall j :: 0 <= j < k ==> IsBlankOrComment(lines[j])) && IsPrompt(lines[k])
  {
    if |lines| > 0 {
      LeadsWithPromptExact(lines[1..]);
      if IsBlankOrComment(lines[0]) {
        assert !IsPrompt(lines[0]);
        if LeadsWithPrompt(lines) {
          var k :| 0 <= k < |lines[1..]| && (forall j :: 0 <= j < k ==> IsBlankOrComment(lines[1..][j])) && IsPrompt(lines[1..][k]);
          assert forall j :: 0 <= j < k + 1 ==> IsBlankOrComment(lines[j]);
          assert IsPrompt(lines[k + 1]);
        }
        if exists k :: 0 <= k < |lines| && (forall j :: 0 <= j < k ==> IsBlankOrComment(lines[j])) && IsPrompt(lines[k]) {
          var k :| 0 <= k < |lines| && (forall j :: 0 <= j < k ==> IsBlankOrComment(lines[j])) && IsPrompt(lines[k]);
          assert k > 0;
          assert forall j :: 0 <= j < k - 1 ==> IsBlankOrComment(lines[1..][j]);
          assert IsPrompt(lines[1..][k - 1]);
        }
      } else if IsPrompt(lines[0]) {
        assert IsPrompt(lines[0]);
      }
    }
  }

  /** The loop of `_exclude_ipython_output`: each line is kept or emptied. */
  function KeptLines(lines: seq<string>): (r: seq<string>)
    ensures |r| == |lines|
  {
    if |lines| == 0 then [] else [if KeepIPythonLine(lines[0]) then lines[0] else ""] + KeptLines(lines[1..])
  }

  lemma {:induction false} KeptLinesAt(lines: seq<string>, i: int)
    requires 0 <= i < |lines|
    ensures KeptLines(lines)[i] == if KeepIPythonLine(lines[i]) then lines[i] else ""
    decreases i
  {
    if i > 0 {
      KeptLinesAt(lines[1..], i - 1);
    }
  }

  /** `_exclude_ipython_output` as a function of the source. */
  function ExcludedOutput(source: string): string
  {
    var lines := Split(source, '\n');
    if LeadsWithPrompt(lines) then Join(KeptLines(lines), "\n") else source
  }

  /** `_exclude_ipython_output` */
  method ExcludeIPythonOutput(source: string) returns (r: string)
    ensures r == ExcludedOutput(source)
  {
    var lines := Split(source, '\n');
    if !LeadsWithPrompt(lines) {
      return source;
    }
    var cleanLines: seq<string> := [];
    for i := 0 to |lines|
      invariant cleanLines + KeptLines(lines[i..]) == KeptLines(lines)
    {
      assert lines[i..][1..] == lines[i + 1..];
      var inStatement := KeepIPythonLine(lines[i]);
      cleanLines := cleanLines + [if inStatement then lines[i] else ""];
    }
    assert lines[|lines|..] == [];
    assert cleanLines == KeptLines(lines);
    r := Join(cleanLines, "\n");
    assert r == Join(KeptLines(lines), "\n");
  }

  /**
   * Without a leading prompt the source comes back unchanged; with one the
   * line count is kept, and each line is kept verbatim when it is a prompt,
   * a continuation or a comment, and emptied otherwise.
   */
  lemma ExcludedOutputLines(source: string)
    ensures var lines := Split(source, '\n');
      var out := Split(ExcludedOutput(source), '\n');
      && (!LeadsWithPrompt(lines) ==> ExcludedOutput(source) == source)
      && |out| == |lines|
      && (LeadsWithPrompt(lines) ==> forall i :: 0 <= i < |lines| ==> out[i] == if KeepIPythonLine(lines[i]) then lines[i] else "")
  {
    var lines := Split(source, '\n');
    if LeadsWithPrompt(lines) {
      var kept := KeptLines(lines);
      forall i | 0 <= i < |kept| ensures '\n' !in kept[i] && kept[i] == if KeepIPythonLine(lines[i]) then lines[i] else "" {
        KeptLinesAt(lines, i);
      }
      SplitJoin(kept, '\n');
    }
  }
}
