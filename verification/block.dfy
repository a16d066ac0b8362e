/**
 * The per-document code block analyser: the state machine over the
 * `concat`, `preface` and `skip` markers and the section titles, the
 * analysis of each block (cleaning, parsing with the hidden prefaces in
 * front, shifting the found names back to the block's own lines), the
 * source listing shown when a block does not parse, and the search patterns
 * built for each name.
 */
module Block {
  import opened Wrappers
  import opened Text
  import Parse
  import Pycon
  import Backref

  /** How a block language is turned into Python: unchanged, `clean_pycon`, or a user callable (`None` standing for a raised `SyntaxError`). */
  datatype Transformer =
    | Passthrough
    | CleanPyconBlock
    | Custom(run: string -> Option<(string, string)>)

  /** `BUILTIN_BLOCKS` without the IPython entries. */
  function BuiltinBlocks(): map<string, Transformer>
  {
    map["python" := Passthrough, "py" := Passthrough, "pycon" := CleanPyconBlock]
  }

  /** The `(source, clean_source)` pair a transformer yields, or `None` when it raises. */
  function Transform(t: Transformer, text: string): Option<(string, string)>
  {
    match t
    case Passthrough => Some((text, text))
    case CleanPyconBlock =>
      var stripped := Pycon.StripBlanklines(text);
      Some((stripped, Join(Pycon.PyconLines(Split(stripped, '\n'), false), "\n")))
    case Custom(run) => run(text)
  }

  /** `SourceTransform`: a block's displayed source, the names found in it, where it sits, and its line in the document. */
  datatype SourceTransform = SourceTransform(source: string, names: seq<Parse.Name>, example: Backref.CodeExample, docLineno: int)

  /** The errors and warnings the analyser logs. */
  datatype Diagnostic =
    | InvalidArgument(message: string)
    | CleanBlockFailed(language: string, source: string)
    | ParseBlockFailed(language: string, shown: string)

  /** The markers the directives leave in the tree, and any other node. */
  datatype Marker =
    | ConcatMarker(mode: string)
    | PrefaceMarker(content: string)
    | SkipMarker(level: string)
    | OtherMarker

  /** What the analyser is given when it is created. */
  datatype Settings = Settings(currentDocument: string, globalPreface: seq<string>, transformers: map<string, Transformer>)

  /** The fields of the analyser that change while a document is visited. */
  datatype Analysis = Analysis(
    sourceTransforms: seq<SourceTransform>,
    titleStack: seq<string>,
    currentRefid: Option<string>,
    prefaces: seq<string>,
    concatGlobal: bool,
    concatSection: bool,
    concatSources: seq<string>,
    skip: Option<string>,
    log: seq<Diagnostic>)

  function Fresh(concatDefault: bool): Analysis
  {
    Analysis([], [], None, [], concatDefault, false, [], None, [])
  }

  /** `if skip:` — a level skips blocks unless it is unset or empty. */
  predicate Skipping(skip: Option<string>)
  {
    skip.Some? && skip.value != ""
  }

  /** `unknown_visit` on a concatenation marker: validates the mode, clears the sources, and starts section or global concatenation. */
  function Concat(st: Analysis, mode: string): (r: Analysis)
    ensures r.concatSources == []
    ensures r.concatSection <==> mode == "section"
    ensures mode != "section" ==> (r.concatGlobal <==> mode == "on")
    ensures mode == "section" ==> r.concatGlobal == st.concatGlobal
    ensures r.skip == st.skip && r.prefaces == st.prefaces && r.sourceTransforms == st.sourceTransforms
  {
    var st1 := if mode in ["off", "section", "on"] then st
      else st.(log := st.log + [InvalidArgument("Invalid concatenation argument: `" + mode + "`")]);
    if mode == "section" then st1.(concatSources := [], concatSection := true)
    else st1.(concatSources := [], concatSection := false, concatGlobal := mode == "on")
  }

  /** `unknown_visit` on a skip marker: validates the level; `off` stops skipping, any other level is stored. */
  function Skip(st: Analysis, level: string): (r: Analysis)
    ensures r.skip.None? <==> level == "off"
    ensures level != "off" ==> r.skip == Some(level)
    ensures (r.log == st.log) <==> level in ["next", "section", "file", "off"]
  {
    var st1 := if level in ["next", "section", "file", "off"] then st
      else st.(log := st.log + [InvalidArgument("Invalid skipping argument: `" + level + "`")]);
    st1.(skip := if level != "off" then Some(level) else None)
  }

  /** `unknown_visit`: the three markers, and nothing for other nodes. */
  function VisitMarker(st: Analysis, node: Marker): Analysis
  {
    match node
    case ConcatMarker(mode) => Concat(st, mode)
    case PrefaceMarker(content) => st.(prefaces := st.prefaces + Split(content, '\n'))
    case SkipMarker(level) => Skip(st, level)
    case OtherMarker => st
  }

  /** `visit_title`: pushes the title; ends section concatenation and section skipping. */
  function Title(st: Analysis, text: string): (r: Analysis)
    ensures r.titleStack == st.titleStack + [text]
    ensures !r.concatSection
    ensures st.concatSection ==> r.concatSources == []
    ensures !st.concatSection ==> r.concatSources == st.concatSources
    ensures r.skip == if st.skip == Some("section") then None else st.skip
    ensures r.concatGlobal == st.concatGlobal && r.prefaces == st.prefaces
  {
    var st1 := st.(titleStack := st.titleStack + [text]);
    var st2 := if st1.concatSection then st1.(concatSection := false, concatSources := []) else st1;
    if st2.skip == Some("section") then st2.(skip := None) else st2
  }

  /** Lines taken by the concatenated sources: `sum(s.count("\n") + 1 for s in sources)`. */
  function LineCounts(sources: seq<string>): nat
  {
    if |sources| == 0 then 0 else Count(sources[0], '\n') + 1 + LineCounts(sources[1..])
  }

  /** `hidden_len`: the lines placed before the block's own code. */
  function HiddenLen(globalPreface: seq<string>, concatSources: seq<string>, prefaces: seq<string>): nat
  {
    |prefaces| + LineCounts(concatSources) + |globalPreface|
  }

  /** A name moved up by `hidden` lines. */
  function ShiftName(n: Parse.Name, hidden: int): Parse.Name
  {
    n.(lineno := n.lineno - hidden, endLineno := n.endLineno - hidden)
  }

  /** The names whose line is inside the block: `[n for n in names if n.lineno > 0]`. */
  function Kept(names: seq<Parse.Name>): (r: seq<Parse.Name>)
    ensures forall x :: x in r ==> x in names && x.lineno > 0
    ensures forall x :: x in names && x.lineno > 0 ==> x in r
  {
    if |names| == 0 then []
    else (if names[0].lineno > 0 then [names[0]] else []) + Kept(names[1..])
  }

  /** The source handed to the parser: global preface, concatenated sources, prefaces and the cleaned block, one per line. */
  function Modified(cfg: Settings, st: Analysis, clean: string): string
  {
    Join(cfg.globalPreface + st.concatSources + st.prefaces + [clean], "\n")
  }

  /** The transformer output for a block that is analysed: not skipped, one text child, a known language, and a transformer that does not raise. */
  function Cleaned(cfg: Settings, st: Analysis, text: Option<string>, language: Option<string>): Option<(string, string)>
  {
    if Analysed(cfg, st, text, language) then Transform(cfg.transformers[language.value], text.value) else None
  }

  /** The names of a parsed block, moved to the block's own lines and restricted to them. */
  function BlockNames(cfg: Settings, st: Analysis, names: seq<Parse.Name>): seq<Parse.Name>
  {
    var shifted := if st.prefaces != [] || st.concatSources != [] || cfg.globalPreface != []
      then seq(|names|, i requires 0 <= i < |names| => ShiftName(names[i], HiddenLen(cfg.globalPreface, st.concatSources, st.prefaces)))
      else names;
    Kept(shifted)
  }

  /** What every visited block does first: take the pending prefaces, and end a `next` skip. */
  function Cleared(st: Analysis): Analysis
  {
    st.(prefaces := [], skip := if st.skip == Some("next") then None else st.skip)
  }

  /** The block is analysed: it is not skipped, its only child is text, and its language has a transformer. */
  predicate Analysed(cfg: Settings, st: Analysis, text: Option<string>, language: Option<string>)
  {
    !Skipping(st.skip) && text.Some? && language.Some? && language.value in cfg.transformers
  }

  /** The rest of `parse_source` once the transformer gave `(source, clean)`: the transform is recorded, then filled with the shifted names, or the listing is logged when the parse fails. */
  function AfterTransform(cfg: Settings, st: Analysis, language: string, line: int, source: string, clean: string, parsed: Option<seq<Parse.Name>>): Analysis
  {
    var st1 := Cleared(st);
    var example := Backref.CodeExample(cfg.currentDocument, st.currentRefid, st.titleStack);
    match parsed
    case None =>
      st1.(sourceTransforms := st1.sourceTransforms + [SourceTransform(source, [], example, line)],
           log := st1.log + [ParseBlockFailed(language, ErrorListing(cfg.globalPreface, st.concatSources, st.prefaces, source))])
    case Some(names) =>
      st1.(sourceTransforms := st1.sourceTransforms + [SourceTransform(source, BlockNames(cfg, st, names), example, line)],
           concatSources := if st.concatSection || st.concatGlobal then st.concatSources + st.prefaces + [clean] else st.concatSources)
  }

  /** `parse_source` as a function of the analyser's state. */
  function BlockVisited(cfg: Settings, st: Analysis, text: Option<string>, language: Option<string>, line: int, parse: string -> Option<seq<Parse.Name>>): (r: Analysis)
    ensures r.prefaces == []
    ensures r.skip == if st.skip == Some("next") then None else st.skip
    ensures r.titleStack == st.titleStack && r.currentRefid == st.currentRefid
    ensures r.concatGlobal == st.concatGlobal && r.concatSection == st.concatSection
    ensures Skipping(st.skip) ==> r.sourceTransforms == st.sourceTransforms && r.concatSources == st.concatSources && r.log == st.log
    ensures r.sourceTransforms == st.sourceTransforms
      || (|r.sourceTransforms| == |st.sourceTransforms| + 1 && r.sourceTransforms[..|st.sourceTransforms|] == st.sourceTransforms)
  {
    if !Analysed(cfg, st, text, language) then Cleared(st)
    else
      match Transform(cfg.transformers[language.value], text.value)
      case None => Cleared(st).(log := st.log + [CleanBlockFailed(language.value, text.value)])
      case Some((source, clean)) => AfterTransform(cfg, st, language.value, line, source, clean, parse(Modified(cfg, st, clean)))
  }

  /**
   * Concatenation grows only after a successful parse while it is active,
   * by the block's prefaces and its cleaned code; otherwise the sources are
   * unchanged.
   */
  lemma ConcatGrowth(cfg: Settings, st: Analysis, text: Option<string>, language: Option<string>, line: int, parse: string -> Option<seq<Parse.Name>>)
    ensures var r := BlockVisited(cfg, st, text, language, line, parse);
      match Cleaned(cfg, st, text, language)
      case None => r.concatSources == st.concatSources
      case Some((_, clean)) =>
        r.concatSources == if parse(Modified(cfg, st, clean)).Some? && (st.concatSection || st.concatGlobal)
          then st.concatSources + st.prefaces + [clean] else st.concatSources
  {
  }

  /**
   * A block that is analysed adds one transform holding its transformed
   * source, its section, the titles above it and its line; its names are
   * the parser's names moved to the block's lines when the parse succeeds,
   * and none otherwise, with the listing of the hidden lines logged.
   */
  lemma TransformAdded(cfg: Settings, st: Analysis, text: Option<string>, language: Option<string>, line: int, parse: string -> Option<seq<Parse.Name>>)
    ensures var r := BlockVisited(cfg, st, text, language, line, parse);
      match Cleaned(cfg, st, text, language)
      case None => r.sourceTransforms == st.sourceTransforms
      case Some((source, clean)) =>
        var parsed := parse(Modified(cfg, st, clean));
        var example := Backref.CodeExample(cfg.currentDocument, st.currentRefid, st.titleStack);
        && r.sourceTransforms == st.sourceTransforms + [SourceTransform(source, if parsed.Some? then BlockNames(cfg, st, parsed.value) else [], example, line)]
        && (parsed.None? <==> r.log == st.log + [ParseBlockFailed(language.value, ErrorListing(cfg.globalPreface, st.concatSources, st.prefaces, source))])
  {
  }

  /** The names kept for a block are exactly the parser's names moved up by the hidden lines whose line is still positive. */
  lemma BlockNamesExact(cfg: Settings, st: Analysis, names: seq<Parse.Name>)
    ensures forall x :: x in BlockNames(cfg, st, names) <==>
      x.lineno > 0 && exists n :: n in names && x == ShiftName(n, HiddenLen(cfg.globalPreface, st.concatSources, st.prefaces))
  {
    var h := HiddenLen(cfg.globalPreface, st.concatSources, st.prefaces);
    if st.prefaces == [] && st.concatSources == [] && cfg.globalPreface == [] {
      assert h == 0;
      assert forall n :: ShiftName(n, h) == n;
    } else {
      var shifted := seq(|names|, i requires 0 <= i < |names| => ShiftName(names[i], h));
      forall x ensures x in shifted <==> exists n :: n in names && x == ShiftName(n, h) {
        if exists n :: n in names && x == ShiftName(n, h) {
          var n :| n in names && x == ShiftName(n, h);
          var i :| 0 <= i < |names| && names[i] == n;
          assert shifted[i] == x;
        }
      }
    }
  }

  lemma {:induction false} LineCountsAppend(a: seq<string>, b: seq<string>)
    ensures LineCounts(a + b) == LineCounts(a) + LineCounts(b)
    decreases |a|
  {
    if |a| > 0 {
      assert (a + b)[1..] == a[1..] + b;
      LineCountsAppend(a[1..], b);
    } else {
      assert a + b == b;
    }
  }

  lemma {:induction false} LineCountsSingleLines(xs: seq<string>)
    requires forall i :: 0 <= i < |xs| ==> '\n' !in xs[i]
    ensures LineCounts(xs) == |xs|
    decreases |xs|
  {
    if |xs| > 0 {
      CountAbsent(xs[0], '\n');
      LineCountsSingleLines(xs[1..]);
    }
  }

  lemma {:induction false} CountAbsent(s: string, c: char)
    requires c !in s
    ensures Count(s, c) == 0
    decreases |s|
  {
    if |s| > 0 {
      CountAbsent(s[1..], c);
    }
  }

  /** The joined sources take `LineCounts` lines. */
  lemma {:induction false} JoinLines(xs: seq<string>)
    requires |xs| >= 1
    ensures Count(Join(xs, "\n"), '\n') + 1 == LineCounts(xs)
    decreases |xs|
  {
    if |xs| > 1 {
      JoinLines(xs[1..]);
      CountAppend(xs[0], "\n" + Join(xs[1..], "\n"), '\n');
      CountAppend("\n", Join(xs[1..], "\n"), '\n');
      assert xs[0] + "\n" + Join(xs[1..], "\n") == xs[0] + ("\n" + Join(xs[1..], "\n"));
    }
  }

  /**
   * `hidden_len` is the number of lines in front of the cleaned block in the
   * parsed source (the global preface and the prefaces hold one line per
   * entry), so a name on line `hidden_len + k` of it is on line `k` of the
   * block.
   */
  lemma HiddenLenCountsLines(globalPreface: seq<string>, concatSources: seq<string>, prefaces: seq<string>, clean: string)
    requires forall i :: 0 <= i < |globalPreface| ==> '\n' !in globalPreface[i]
    requires forall i :: 0 <= i < |prefaces| ==> '\n' !in prefaces[i]
    requires globalPreface + concatSources + prefaces != []
    ensures var front := Join(globalPreface + concatSources + prefaces, "\n");
      && Join(globalPreface + concatSources + prefaces + [clean], "\n") == front + "\n" + clean
      && |Split(front, '\n')| == HiddenLen(globalPreface, concatSources, prefaces)
  {
    var xs := globalPreface + concatSources + prefaces;
    JoinAppend(xs, clean, "\n");
    JoinLines(xs);
    SplitCount(Join(xs, "\n"), '\n');
    LineCountsAppend(globalPreface + concatSources, prefaces);
    LineCountsAppend(globalPreface, concatSources);
    LineCountsSingleLines(globalPreface);
    LineCountsSingleLines(prefaces);
  }

  /** The labels of the error listing. */
  const GlobalPrefaceLabel := "global preface:"
  const ConcatenationsLabel := "concatenations:"
  const LocalPrefaceLabel := "local preface:"
  const BlockSourceLabel := "block source:"

  /** The guide of line `i` of the listing, for sections of `g`, `c` and `p` lines: a label on the first line of each non-empty section and of the block source. */
  function Guide(g: nat, c: nat, p: nat, i: nat): string
  {
    if g > 0 && i == 0 then GlobalPrefaceLabel
    else if c > 0 && i == g then ConcatenationsLabel
    else if p > 0 && i == g + c then LocalPrefaceLabel
    else if i == g + c + p then BlockSourceLabel
    else ""
  }

  function Guides(g: nat, c: nat, p: nat, n: nat): (r: seq<string>)
    ensures |r| == n
  {
    seq(n, i requires 0 <= i < n => Guide(g, c, p, i))
  }

  /** `max(len(g) + 1 for g in guides)`, 0 for no guides. */
  function MaxWidth(guides: seq<string>): (w: nat)
    ensures forall i :: 0 <= i < |guides| ==> |guides[i]| < w
    ensures |guides| > 0 ==> exists i :: 0 <= i < |guides| && w == |guides[i]| + 1
  {
    if |guides| == 0 then 0
    else
      var rest := MaxWidth(guides[1..]);
      if |guides[0]| + 1 >= rest then |guides[0]| + 1
      else
        var i :| 0 <= i < |guides[1..]| && rest == |guides[1..][i]| + 1;
        assert rest == |guides[i + 1]| + 1;
        rest
  }

  function Spaces(n: nat): (r: string)
    ensures |r| == n && forall i :: 0 <= i < n ==> r[i] == ' '
  {
    seq(n, _ => ' ')
  }

  /** `g.ljust(width)` */
  function LJust(g: string, width: nat): (r: string)
    ensures |g| <= width ==> |r| == width
    ensures StartsWith(r, g)
    ensures forall i :: |g| <= i < |r| ==> r[i] == ' '
  {
    if |g| >= width then g else g + Spaces(width - |g|)
  }

  /** The rows of the listing: each line behind its padded guide. */
  function ErrorRows(globalPreface: seq<string>, concatSources: seq<string>, prefaces: seq<string>, source: string): (rows: seq<string>)
    ensures |rows| == |globalPreface| + |concatSources| + |prefaces| + |Split(source, '\n')|
  {
    var lines := globalPreface + concatSources + prefaces + Split(source, '\n');
    var guides := Guides(|globalPreface|, |concatSources|, |prefaces|, |lines|);
    var width := MaxWidth(guides);
    seq(|lines|, i requires 0 <= i < |lines| => LJust(guides[i], width) + lines[i])
  }

  /** `_format_source_for_error` as a function. */
  function ErrorListing(globalPreface: seq<string>, concatSources: seq<string>, prefaces: seq<string>, source: string): string
  {
    Join(ErrorRows(globalPreface, concatSources, prefaces, source), "\n")
  }

  /** The guides are padded to the longest label present plus one. */
  lemma GuideWidth(g: nat, c: nat, p: nat, n: nat)
    requires g + c + p < n
    ensures MaxWidth(Guides(g, c, p, n)) == if g > 0 || c > 0 then 16 else if p > 0 then 15 else 14
  {
    var guides := Guides(g, c, p, n);
    var w := MaxWidth(guides);
    var i :| 0 <= i < n && w == |guides[i]| + 1;
    assert guides[g + c + p] == BlockSourceLabel;
    if g > 0 {
      assert guides[0] == GlobalPrefaceLabel;
    } else if c > 0 {
      assert guides[g] == ConcatenationsLabel;
    } else if p > 0 {
      assert guides[g + c] == LocalPrefaceLabel;
    }
    assert Guide(g, c, p, i) == guides[i];
  }

  /**
   * Every entry of the global preface, the concatenated sources, the
   * prefaces and the source lines gets one row; all rows have the same
   * gutter, which a section label starts exactly on its section's first
   * row (the other gutters are blank), and the entry follows the gutter.
   */
  lemma ErrorRowsShape(globalPreface: seq<string>, concatSources: seq<string>, prefaces: seq<string>, source: string, i: int)
    requires 0 <= i < |globalPreface| + |concatSources| + |prefaces| + |Split(source, '\n')|
    ensures var lines := globalPreface + concatSources + prefaces + Split(source, '\n');
      var row := ErrorRows(globalPreface, concatSources, prefaces, source)[i];
      var g, c, p := |globalPreface|, |concatSources|, |prefaces|;
      var width := if g > 0 || c > 0 then 16 else if p > 0 then 15 else 14;
      && |row| == width + |lines[i]|
      && row[width..] == lines[i]
      && (row[0] == ' ' <==> Guide(g, c, p, i) == "")
      && (StartsWith(row, GlobalPrefaceLabel) <==> g > 0 && i == 0)
      && (StartsWith(row, ConcatenationsLabel) <==> c > 0 && i == g)
      && (StartsWith(row, LocalPrefaceLabel) <==> p > 0 && i == g + c)
      && (StartsWith(row, BlockSourceLabel) <==> i == g + c + p)
  {
    var lines := globalPreface + concatSources + prefaces + Split(source, '\n');
    var g, c, p := |globalPreface|, |concatSources|, |prefaces|;
    GuideWidth(g, c, p, |lines|);
    var width := MaxWidth(Guides(g, c, p, |lines|));
    var row := ErrorRows(globalPreface, concatSources, prefaces, source)[i];
    var guide := Guide(g, c, p, i);
    var padded := LJust(guide, width);
    assert row == padded + lines[i];
    assert row[..width] == padded;
    LabelPrefix(guide, padded, row, width);
  }

  /** A row begins with a label exactly when its guide is that label, since the labels differ within their first 14 characters and a blank gutter begins with a space. */
  lemma LabelPrefix(guide: string, padded: string, row: string, width: nat)
    requires guide in [GlobalPrefaceLabel, ConcatenationsLabel, LocalPrefaceLabel, BlockSourceLabel, ""]
    requires 14 <= width && padded == LJust(guide, width) && StartsWith(row, padded)
    ensures row[0] == ' ' <==> guide == ""
    ensures StartsWith(row, GlobalPrefaceLabel) <==> guide == GlobalPrefaceLabel
    ensures StartsWith(row, ConcatenationsLabel) <==> guide == ConcatenationsLabel
    ensures StartsWith(row, LocalPrefaceLabel) <==> guide == LocalPrefaceLabel
    ensures StartsWith(row, BlockSourceLabel) <==> guide == BlockSourceLabel
  {
    assert row[..|padded|] == padded;
    assert row[0] == padded[0];
    assert forall k :: 0 <= k < |guide| ==> row[k] == guide[k];
    if guide == "" {
      assert row[0] == ' ';
    } else {
      assert row[0] == guide[0];
      assert row[1] == guide[1];
      assert StartsWith(row, guide) by {
        assert row[..|guide|] == padded[..|guide|] == guide;
      }
    }
  }

  /** `.`-joined parts of a dotted name with one name span each, the first allowing any token class and a decorator `@`. */
  const Period := @"\s*<span class=""o"">.</span>\s*"
  const NoDotPre := @"(?<!<span class=""o"">\.</span>)()"
  const CallDotPre := @"(\)</span>\s*<span class=""o"">\.</span>\s*)"
  const NoDotPost := @"(?!(<span class=""o"">\.)|(</a>))"
  const Whitespace := @"(<span class=""w"">\s*</span>)|(\s*)"
  const ImportPre := @"((<span class=""kn"">import</span>" + Whitespace + @"(<span class=""p"">\(</span>\s*)?)" + @"|(<span class=""[op]"">,</span>" + Whitespace + "))"
  const ImportPost := @"(?=($)|(\s+)|(<span class=""[opw]"">))(?!</a>)"
  const FromPre := @"(<span class=""kn"">from</span>" + Whitespace + ")"
  const FromPost := @"(?=" + Whitespace + @"<span class=""kn"">import</span>)"

  function NameSpan(name: string): string
  {
    @"<span class=""n"">" + name + "</span>"
  }

  function FirstNameSpan(name: string): string
  {
    @"<span class=""[a-z]+"">@?" + name + "</span>"
  }

  function ImportTargetSpan(name: string): string
  {
    @"<span class=""[a-z]+"">" + name + "</span>"
  }

  function ImportFromSpan(name: string): string
  {
    @"<span class=""nn"">" + name + "</span>"
  }

  /** The spans of a dotted name's parts, joined by the period pattern. */
  function DottedPattern(parts: seq<string>): string
    requires |parts| >= 1
  {
    Join([FirstNameSpan(parts[0])] + seq(|parts| - 1, i requires 0 <= i < |parts| - 1 => NameSpan(parts[i + 1])), Period)
  }

  /** `construct_name_pattern`; every link context has a pattern, so the final `return None` is never reached. */
  function NamePattern(name: Parse.Name): (r: string)
    ensures '.' !in name.codeStr && name.context.NoneContext? ==> r == NoDotPre + FirstNameSpan(name.codeStr) + NoDotPost
    ensures '.' !in name.codeStr && name.context.AfterCall? ==> r == CallDotPre + FirstNameSpan(name.codeStr) + NoDotPost
    ensures name.context.ImportFrom? ==> r == FromPre + ImportFromSpan(name.codeStr) + FromPost
    ensures name.context.ImportTarget? ==> r == ImportPre + ImportTargetSpan(name.codeStr) + ImportPost
  {
    assert '.' !in name.codeStr ==> DottedPattern(Split(name.codeStr, '.')) == FirstNameSpan(name.codeStr) by {
      if '.' !in name.codeStr {
        DottedSingle(name.codeStr);
      }
    }
    var context := name.context;
    if context.NoneContext? then NoDotPre + DottedPattern(Split(name.codeStr, '.')) + NoDotPost
    else if context.AfterCall? then CallDotPre + DottedPattern(Split(name.codeStr, '.')) + NoDotPost
    else if context.ImportFrom? then FromPre + ImportFromSpan(name.codeStr) + FromPost
    else ImportPre + ImportTargetSpan(name.codeStr) + ImportPost
  }

  /** A name without a dot is one span that may be any token class. */
  lemma DottedSingle(code: string)
    requires '.' !in code
    ensures DottedPattern(Split(code, '.')) == FirstNameSpan(code)
  {
    SplitFree(code, '.');
  }

  /** Each further dotted part adds the period pattern and one plain name span. */
  lemma DottedExtend(code: string, part: string)
    requires '.' !in part
    ensures DottedPattern(Split(code + "." + part, '.')) == DottedPattern(Split(code, '.')) + Period + NameSpan(part)
  {
    SplitConcat(code, part, '.');
    SplitFree(part, '.');
    var parts := Split(code, '.');
    var all := parts + [part];
    assert Split(code + "." + part, '.') == all;
    var spans := [FirstNameSpan(parts[0])] + seq(|parts| - 1, i requires 0 <= i < |parts| - 1 => NameSpan(parts[i + 1]));
    var allSpans := [FirstNameSpan(all[0])] + seq(|all| - 1, i requires 0 <= i < |all| - 1 => NameSpan(all[i + 1]));
    assert allSpans == spans + [NameSpan(part)];
    JoinAppend(spans, NameSpan(part), Period);
  }

  /**
   * `CodeBlockAnalyser`: visits one document, keeping the marker state and
   * collecting a transform per analysed block.
   */
  class CodeBlockAnalyser {
    var sourceTransforms: seq<SourceTransform>
    const currentDocument: string
    const globalPreface: seq<string>
    const transformers: map<string, Transformer>
    var titleStack: seq<string>
    var currentRefid: Option<string>
    var prefaces: seq<string>
    var concatGlobal: bool
    var concatSection: bool
    var concatSources: seq<string>
    var skip: Option<string>
    /** The errors and warnings logged so far. */
    var log: seq<Diagnostic>

    function Config(): Settings
    {
      Settings(currentDocument, globalPreface, transformers)
    }

    function Snapshot(): Analysis
      reads this
    {
      Analysis(sourceTransforms, titleStack, currentRefid, prefaces, concatGlobal, concatSection, concatSources, skip, log)
    }

    /** `__init__`: the built-in transformers overridden by the custom ones, concatenation as configured, nothing pending. */
    constructor(currentDocument: string, globalPreface: seq<string>, customBlocks: map<string, Transformer>, concatDefault: bool)
      ensures Config() == Settings(currentDocument, globalPreface, BuiltinBlocks() + customBlocks)
      ensures Snapshot() == Fresh(concatDefault)
    {
      this.currentDocument := currentDocument;
      this.globalPreface := globalPreface;
      transformers := BuiltinBlocks() + customBlocks;
      sourceTransforms := [];
      titleStack := [];
      currentRefid := None;
      prefaces := [];
      concatGlobal := concatDefault;
      concatSection := false;
      concatSources := [];
      skip := None;
      log := [];
    }

    /** `unknown_visit` */
    method UnknownVisit(node: Marker)
      modifies this
      ensures Snapshot() == VisitMarker(old(Snapshot()), node)
    {
      match node {
        case ConcatMarker(mode) =>
          if mode !in ["off", "section", "on"] {
            log := log + [InvalidArgument("Invalid concatenation argument: `" + mode + "`")];
          }
          concatSources := [];
          if mode == "section" {
            concatSection := true;
          } else {
            concatSection := false;
            concatGlobal := mode == "on";
          }
        case PrefaceMarker(content) =>
          prefaces := prefaces + Split(content, '\n');
        case SkipMarker(level) =>
          if level !in ["next", "section", "file", "off"] {
            log := log + [InvalidArgument("Invalid skipping argument: `" + level + "`")];
          }
          skip := if level != "off" then Some(level) else None;
        case OtherMarker =>
      }
    }

    /** `visit_title` */
    method VisitTitle(text: string)
      modifies this
      ensures Snapshot() == Title(old(Snapshot()), text)
    {
      titleStack := titleStack + [text];
      if concatSection {
        concatSection := false;
        concatSources := [];
      }
      if skip == Some("section") {
        skip := None;
      }
    }

    /** `visit_section`: the first id of the section becomes the current one. */
    method VisitSection(ids: seq<string>)
      requires |ids| >= 1
      modifies this
      ensures Snapshot() == old(Snapshot()).(currentRefid := Some(ids[0]))
    {
      currentRefid := Some(ids[0]);
    }

    /** `depart_section`: pops the section's title. */
    method DepartSection()
      requires |titleStack| >= 1
      modifies this
      ensures Snapshot() == old(Snapshot()).(titleStack := old(titleStack)[..|old(titleStack)| - 1])
    {
      titleStack := titleStack[..|titleStack| - 1];
    }

    /** `visit_doctest_block`: a doctest block is a `pycon` block. */
    method VisitDoctestBlock(text: Option<string>, line: int, parse: string -> Option<seq<Parse.Name>>)
      modifies this
      ensures Snapshot() == BlockVisited(Config(), old(Snapshot()), text, Some("pycon"), line, parse)
    {
      ParseSource(text, Some("pycon"), line, parse);
    }

    /**
     * `parse_source`: `text` is the block's text when its only child is a
     * text node, `language` its language, `line` its line in the document,
     * and `parse` stands for `parse_names` (`None` when it raises).
     */
    method ParseSource(text: Option<string>, language: Option<string>, line: int, parse: string -> Option<seq<Parse.Name>>)
      modifies this
      ensures Snapshot() == BlockVisited(Config(), old(Snapshot()), text, language, line, parse)
    {
      ghost var st := Snapshot();
      var pf := prefaces;
      prefaces := [];
      var sk := skip;
      if sk == Some("next") {
        skip := None;
      }
      if Skipping(sk) || text.None? || language.None? || language.value !in transformers {
        return;
      }
      var cleaned := RunTransformer(transformers[language.value], text.value);
      if cleaned.None? {
        log := log + [CleanBlockFailed(language.value, text.value)];
        return;
      }
      var (source, clean) := cleaned.value;
      RecordBlock(st, pf, language.value, line, source, clean, parse);
    }

    /** The part of `parse_source` after the transformer, on the state `Cleared(st)`. */
    method RecordBlock(ghost st: Analysis, pf: seq<string>, language: string, line: int, source: string, clean: string, parse: string -> Option<seq<Parse.Name>>)
      requires Snapshot() == Cleared(st) && pf == st.prefaces
      modifies this
      ensures Snapshot() == AfterTransform(Config(), st, language, line, source, clean, parse(Modified(Config(), st, clean)))
    {
      var example := Backref.CodeExample(currentDocument, currentRefid, titleStack);
      var index := |sourceTransforms|;
      sourceTransforms := sourceTransforms + [SourceTransform(source, [], example, line)];
      var modified := Join(globalPreface + concatSources + pf + [clean], "\n");
      assert modified == Modified(Config(), st, clean);
      var parsed := parse(modified);
      if parsed.None? {
        var shown := FormatSourceForError(globalPreface, concatSources, pf, source);
        log := log + [ParseBlockFailed(language, shown)];
        return;
      }
      var names := PlaceNames(Config(), st, globalPreface, concatSources, pf, parsed.value);
      if concatSection || concatGlobal {
        concatSources := concatSources + pf + [clean];
      }
      sourceTransforms := sourceTransforms[index := sourceTransforms[index].(names := names)];
      assert sourceTransforms == st.sourceTransforms + [SourceTransform(source, BlockNames(Config(), st, parsed.value), example, line)];
    }

    /** The names of a parsed block moved past the hidden lines, when there are any, and restricted to the block's own lines. */
    static method PlaceNames(ghost cfg: Settings, ghost st: Analysis, gp: seq<string>, cs: seq<string>, pf: seq<string>, parsed: seq<Parse.Name>) returns (names: seq<Parse.Name>)
      requires gp == cfg.globalPreface && cs == st.concatSources && pf == st.prefaces
      ensures names == BlockNames(cfg, st, parsed)
    {
      names := parsed;
      if pf != [] || cs != [] || gp != [] {
        var hidden := |pf| + LineCounts(cs) + |gp|;
        names := ShiftNames(names, hidden);
        assert names == seq(|parsed|, i requires 0 <= i < |parsed| => ShiftName(parsed[i], HiddenLen(gp, cs, pf)));
      }
      names := Kept(names);
    }

    /** `transformer(source)` inside its `try`: the transformer of the block's language, `None` when it raises. */
    static method RunTransformer(t: Transformer, text: string) returns (r: Option<(string, string)>)
      ensures r == Transform(t, text)
    {
      match t {
        case Passthrough =>
          r := Some((text, text));
        case CleanPyconBlock =>
          var stripped, clean := Pycon.CleanPycon(text);
          r := Some((stripped, clean));
        case Custom(run) =>
          r := run(text);
      }
    }

    /** The loop of `parse_source` that moves every name up by `hidden` lines. */
    static method ShiftNames(names: seq<Parse.Name>, hidden: int) returns (r: seq<Parse.Name>)
      ensures |r| == |names|
      ensures forall i :: 0 <= i < |names| ==> r[i] == ShiftName(names[i], hidden)
    {
      r := names;
      for i := 0 to |r|
        invariant |r| == |names|
        invariant forall j :: 0 <= j < i ==> r[j] == ShiftName(names[j], hidden)
        invariant forall j :: i <= j < |r| ==> r[j] == names[j]
      {
        r := r[i := r[i].(lineno := r[i].lineno - hidden, endLineno := r[i].endLineno - hidden)];
      }
    }

    /** `_format_source_for_error`: labels the first line of each section in a gutter array, pads the gutters, and joins them with the lines. */
    static method FormatSourceForError(globalPreface: seq<string>, concatSources: seq<string>, prefaces: seq<string>, source: string) returns (r: string)
      ensures r == ErrorListing(globalPreface, concatSources, prefaces, source)
    {
      var lines := globalPreface + concatSources + prefaces + Split(source, '\n');
      var g, c, p := |globalPreface|, |concatSources|, |prefaces|;
      var guides := LabelSections(g, c, p, |lines|);
      var width := MaxWidth(guides[..]);
      for i := 0 to guides.Length
        invariant forall j :: 0 <= j < i ==> guides[j] == LJust(Guide(g, c, p, j), width)
        invariant forall j :: i <= j < guides.Length ==> guides[j] == Guide(g, c, p, j)
      {
        guides[i] := LJust(guides[i], width);
      }
      var padded := guides[..];
      var rows := seq(|lines|, i requires 0 <= i < |lines| => padded[i] + lines[i]);
      assert rows == ErrorRows(globalPreface, concatSources, prefaces, source);
      r := Join(rows, "\n");
    }

    /** The gutters of `_format_source_for_error` before padding: empty, with a label written at the start of each non-empty section and of the block source. */
    static method LabelSections(g: nat, c: nat, p: nat, n: nat) returns (guides: array<string>)
      requires g + c + p < n
      ensures fresh(guides) && guides[..] == Guides(g, c, p, n)
    {
      guides := new string[n](_ => "");
      var ix := 0;
      if g > 0 {
        guides[0] := GlobalPrefaceLabel;
        ix := ix + g;
      }
      if c > 0 {
        guides[ix] := ConcatenationsLabel;
        ix := ix + c;
      }
      if p > 0 {
        guides[ix] := LocalPrefaceLabel;
        ix := ix + p;
      }
      guides[ix] := BlockSourceLabel;
      forall j | 0 <= j < n ensures guides[j] == Guide(g, c, p, j) {
      }
    }
  }
}
