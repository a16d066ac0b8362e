/**
 * The extension's linking pass (`sphinx_codeautolink/extension/__init__.py`):
 * once every document has been read, each name found in a code block is
 * resolved to an object, looked up in the inventory and either kept with its
 * location or dropped with a warning; the kept names are then grouped by
 * location into the examples that the backreference tables list.
 */
module Extension {
  import opened Wrappers
  import opened Text
  import Parse
  import Block
  import Backref
  import Resolve
  import Sorting

  /** A warning logged with `logger.warning`: its subtype, message and `(document, line)` location. */
  datatype Warning = Warning(subtype: string, message: string, location: Option<(string, int)>)

  const FailedResolve := "failed_resolve"
  const MissingInventory := "missing_inventory"
  const MissingModulesHint := "\n  because of missing intersphinx or documentation entries"
  const RelocatedHint := "\nPossibly missing documentation entry entirely, or the object has been relocated from the source file."

  /** The configuration the pass reads: the imported objects, `codeautolink_inventory_map` and the two warning switches. */
  datatype Settings = Settings(
    graph: Resolve.Graph,
    inventoryMap: map<string, string>,
    warnFailedResolve: bool,
    warnMissingInventory: bool)

  // ---------------------------------------------------------------------
  // Messages
  // ---------------------------------------------------------------------

  /** The line part of `_resolve_msg`: `line N` on one line, `lines N-M` otherwise. */
  function LineText(lineno: int, endLineno: int): (r: string)
    ensures StartsWith(r, "line")
    ensures StartsWith(r, "lines ") <==> lineno != endLineno
    ensures lineno == endLineno ==> r == "line " + IntToString(lineno)
    ensures lineno != endLineno ==> r == "lines " + (IntToString(lineno) + "-" + IntToString(endLineno))
  {
    if lineno == endLineno then
      var digits := IntToString(lineno);
      StartsWithAppend("line ", digits, 4);
      assert ("line " + digits)[5] == digits[0];
      "line " + digits
    else
      var range := IntToString(lineno) + "-" + IntToString(endLineno);
      StartsWithAppend("lines ", range, 4);
      StartsWithAppend("lines ", range, 6);
      "lines " + range
  }

  /** `_resolve_msg(name)`: the code and where it is. */
  function ResolveMsg(name: Parse.Name): string
  {
    "`" + name.codeStr + "` on " + LineText(name.lineno, name.endLineno)
  }

  /** The path shown when resolution fails: the components joined by dots, with the dot before each call dropped. */
  function WarningPath(comps: seq<string>): string
  {
    Replace(Join(comps, "."), ".()", "()")
  }

  /** `'.' not in s` */
  predicate NoDot(s: string)
    decreases |s|
  {
    |s| == 0 || (s[0] != '.' && NoDot(s[1..]))
  }

  /** A component as the parser makes them: the call marker, or a name with no dot that does not begin like a call. */
  predicate PlainComponent(c: string)
  {
    c == Parse.CallMarker || (NoDot(c) && !StartsWith(c, Parse.CallMarker))
  }

  /** Reference definition of the path: a call attaches to what precedes it, any other component follows a dot. */
  function CallPath(comps: seq<string>): string
  {
    if |comps| == 0 then ""
    else if |comps| == 1 then comps[0]
    else comps[0] + (if comps[1] == Parse.CallMarker then "" else ".") + CallPath(comps[1..])
  }

  lemma {:induction false} ReplaceAfter(a: string, t: string)
    requires NoDot(a)
    ensures Replace(a + t, ".()", "()") == a + Replace(t, ".()", "()")
    decreases |a|
  {
    if |a| > 0 {
      var s := a + t;
      assert s[1..] == a[1..] + t;
      if |s| >= 3 {
        assert s[..3][0] == a[0];
      } else {
        assert |t| < 3;
      }
      ReplaceAfter(a[1..], t);
    } else {
      assert a + t == t;
    }
  }

  lemma ReplaceDotCall(t: string)
    requires StartsWith(t, Parse.CallMarker)
    ensures Replace("." + t, ".()", "()") == Replace(t, ".()", "()")
  {
    var s := "." + t;
    assert s[..3] == ".()";
    assert s[3..] == t[2..];
    assert t == "()" + t[2..];
    assert NoDot("()") by {
      assert "()"[1..] == ")" && ")"[1..] == "";
    }
    ReplaceAfter("()", t[2..]);
  }

  lemma ReplaceDotOther(t: string)
    requires !StartsWith(t, Parse.CallMarker)
    ensures Replace("." + t, ".()", "()") == "." + Replace(t, ".()", "()")
  {
    var s := "." + t;
    assert s[1..] == t;
    if |s| >= 3 {
      assert s[1..3] == t[..2];
    }
  }

  /** The joined path begins like a call exactly when its first component is one. */
  lemma JoinStarts(comps: seq<string>)
    requires |comps| >= 1 && PlainComponent(comps[0])
    ensures StartsWith(Join(comps, "."), Parse.CallMarker) <==> comps[0] == Parse.CallMarker
  {
    var c := comps[0];
    var j := Join(comps, ".");
    if |comps| == 1 {
      assert j == c;
    } else {
      assert j == c + "." + Join(comps[1..], ".");
      if |c| >= 2 {
        assert j[..2] == c[..2];
      } else if |c| == 1 {
        assert j[1] == '.';
      } else {
        assert j[0] == '.';
      }
    }
  }

  lemma NoDotCall()
    ensures NoDot(Parse.CallMarker)
  {
    assert Parse.CallMarker[1..] == ")" && ")"[1..] == "";
  }

  /** The first component passes through the replacement unchanged. */
  lemma WarningPathHead(comps: seq<string>)
    requires |comps| > 1 && PlainComponent(comps[0])
    ensures WarningPath(comps) == comps[0] + Replace("." + Join(comps[1..], "."), ".()", "()")
  {
    assert Join(comps, ".") == comps[0] + ("." + Join(comps[1..], "."));
    NoDotCall();
    ReplaceAfter(comps[0], "." + Join(comps[1..], "."));
  }

  /** One component in front of a path already known to match its reference. */
  lemma WarningPathStep(comps: seq<string>)
    requires |comps| > 1 && PlainComponent(comps[0]) && PlainComponent(comps[1])
    requires WarningPath(comps[1..]) == CallPath(comps[1..])
    ensures WarningPath(comps) == CallPath(comps)
  {
    var rest := comps[1..];
    var j := Join(rest, ".");
    WarningPathHead(comps);
    JoinStarts(rest);
    if comps[1] == Parse.CallMarker {
      StepCall(comps[0], rest, j);
    } else {
      StepOther(comps[0], rest, j);
    }
  }

  lemma StepCall(c: string, rest: seq<string>, j: string)
    requires |rest| > 0 && rest[0] == Parse.CallMarker && StartsWith(j, Parse.CallMarker)
    requires Replace(j, ".()", "()") == CallPath(rest)
    ensures c + Replace("." + j, ".()", "()") == CallPath([c] + rest)
  {
    ReplaceDotCall(j);
    assert ([c] + rest)[1..] == rest;
  }

  lemma StepOther(c: string, rest: seq<string>, j: string)
    requires |rest| > 0 && rest[0] != Parse.CallMarker && !StartsWith(j, Parse.CallMarker)
    requires Replace(j, ".()", "()") == CallPath(rest)
    ensures c + Replace("." + j, ".()", "()") == CallPath([c] + rest)
  {
    ReplaceDotOther(j);
    assert ([c] + rest)[1..] == rest;
    assert c + ("." + CallPath(rest)) == c + "." + CallPath(rest);
  }

  /** For parser components, the replacement yields exactly the reference path. */
  lemma {:induction false} WarningPathCalls(comps: seq<string>)
    requires forall i :: 0 <= i < |comps| ==> PlainComponent(comps[i])
    ensures WarningPath(comps) == CallPath(comps)
    decreases |comps|
  {
    if |comps| == 0 {
      assert Join(comps, ".") == "";
    } else if |comps| == 1 {
      NoDotCall();
      ReplaceAfter(comps[0], "");
      assert comps[0] + "" == comps[0];
      assert Replace("", ".()", "()") == "";
    } else {
      WarningPathCalls(comps[1..]);
      WarningPathStep(comps);
    }
  }

  /** The message of a failed resolution. */
  function FailedMessage(name: Parse.Name, error: string): string
  {
    "Could not resolve " + ResolveMsg(name) + " using path `" + WarningPath(name.importComponents) + "`.\n" + error
  }

  /** The message of a location missing from the inventory. */
  function MissingMessage(name: Parse.Name, key: string): string
  {
    "Inventory missing `" + key + "` when resolving " + ResolveMsg(name) + "."
      + RelocatedHint
  }

  // ---------------------------------------------------------------------
  // One name
  // ---------------------------------------------------------------------

  /** A name `filter_and_resolve` can hand to `resolve_location`: an empty target is never resolved. */
  predicate Resolvable(name: Parse.Name)
  {
    name.codeStr != "" ==> Resolve.Chain(name.importComponents)
  }

  /** What becomes of one name. */
  datatype Verdict =
    | EmptyTarget
    | Unresolved(error: string)
    | NotInInventory(key: string)
    | Linked(key: string)

  /** `inventory_map.get(key, key)` */
  function MapGet(m: map<string, string>, key: string): string
  {
    if key in m then m[key] else key
  }

  /** The branches of the loop body of `filter_and_resolve` for one name. */
  function Judge(cfg: Settings, inv: map<string, string>, name: Parse.Name): (v: Verdict)
    requires Resolve.Valid(cfg.graph) && Resolvable(name)
    ensures v.EmptyTarget? <==> name.codeStr == ""
    ensures v.Unresolved? <==> name.codeStr != "" && Resolve.Resolved(cfg.graph, inv.Keys, name.importComponents).Err?
    ensures v.Linked? ==> v.key in inv
    ensures v.NotInInventory? ==> v.key !in inv
    ensures (v.Linked? || v.NotInInventory?) ==>
      v.key == MapGet(cfg.inventoryMap, Resolve.Resolved(cfg.graph, inv.Keys, name.importComponents).value)
  {
    if name.codeStr == "" then EmptyTarget
    else
      match Resolve.Resolved(cfg.graph, inv.Keys, name.importComponents)
      case Err(e) => Unresolved(e)
      case Ok(location) =>
        var key := MapGet(cfg.inventoryMap, location);
        if key in inv then Linked(key) else NotInInventory(key)
  }

  /** The warnings logged for one name of the transform at `(doc, lineno)`. */
  function Warned(cfg: Settings, doc: string, lineno: int, name: Parse.Name, v: Verdict): (ws: seq<Warning>)
    ensures |ws| <= 1
    ensures forall i :: 0 <= i < |ws| ==> ws[i].location == Some((doc, lineno))
    ensures |ws| == 1 <==> (v.Unresolved? && cfg.warnFailedResolve) || (v.NotInInventory? && cfg.warnMissingInventory)
    ensures ws != [] ==> ws[0].subtype == if v.Unresolved? then FailedResolve else MissingInventory
  {
    match v
    case Unresolved(e) =>
      if cfg.warnFailedResolve then [Warning(FailedResolve, FailedMessage(name, e), Some((doc, lineno)))] else []
    case NotInInventory(key) =>
      if cfg.warnMissingInventory then [Warning(MissingInventory, MissingMessage(name, key), Some((doc, lineno)))] else []
    case _ => []
  }

  /**
   * A name whose chain has no call and whose first component does not
   * import stands for its own dotted path: it is linked exactly when that
   * path, after the inventory map, is in the inventory.
   */
  lemma UnimportableLinkedByPath(cfg: Settings, inv: map<string, string>, name: Parse.Name)
    requires Resolve.Valid(cfg.graph) && name.codeStr != "" && Resolve.Chain(name.importComponents)
    requires Parse.CallMarker !in name.importComponents && name.importComponents[0] !in cfg.graph.modules
    ensures var key := MapGet(cfg.inventoryMap, Join(name.importComponents, "."));
      Judge(cfg, inv, name) == if key in inv then Linked(key) else NotInInventory(key)
  {
    Resolve.UnimportableFallsBack(cfg.graph, inv.Keys, name.importComponents);
  }

  // ---------------------------------------------------------------------
  // The names of one transform
  // ---------------------------------------------------------------------

  predicate AllResolvable(names: seq<Parse.Name>)
  {
    forall i :: 0 <= i < |names| ==> Resolvable(names[i])
  }

  /** `vs` holds the verdict on each name, in order. */
  ghost predicate JudgedAs(cfg: Settings, inv: map<string, string>, names: seq<Parse.Name>, vs: seq<Verdict>)
    requires Resolve.Valid(cfg.graph) && AllResolvable(names)
  {
    && |vs| == |names|
    && forall i {:trigger Judge(cfg, inv, names[i])} :: 0 <= i < |names| ==> vs[i] == Judge(cfg, inv, names[i])
  }

  /** The verdict on each name, in order. */
  ghost function Verdicts(cfg: Settings, inv: map<string, string>, names: seq<Parse.Name>): (vs: seq<Verdict>)
    requires Resolve.Valid(cfg.graph) && AllResolvable(names)
    ensures JudgedAs(cfg, inv, names, vs)
  {
    var all := seq(|names|, i requires 0 <= i < |names| => Judge(cfg, inv, names[i]));
    assert JudgedAs(cfg, inv, names, all);
    var vs :| JudgedAs(cfg, inv, names, vs);
    vs
  }

  /** The verdicts agree with the inventory: a linked key is in it, a missing one is not. */
  predicate Sound(vs: seq<Verdict>, inv: map<string, string>)
  {
    forall i :: 0 <= i < |vs| ==> (vs[i].Linked? ==> vs[i].key in inv) && (vs[i].NotInInventory? ==> vs[i].key !in inv)
  }

  lemma VerdictsSound(cfg: Settings, inv: map<string, string>, names: seq<Parse.Name>)
    requires Resolve.Valid(cfg.graph) && AllResolvable(names)
    ensures Sound(Verdicts(cfg, inv, names), inv)
  {
    var vs := Verdicts(cfg, inv, names);
    forall i | 0 <= i < |vs| ensures (vs[i].Linked? ==> vs[i].key in inv) && (vs[i].NotInInventory? ==> vs[i].key !in inv) {
      var v := Judge(cfg, inv, names[i]);
    }
  }

  /** The names `filter_and_resolve` keeps of one transform, in order: the new `transform.names`. */
  function KeptNames(names: seq<Parse.Name>, vs: seq<Verdict>): seq<Parse.Name>
    requires |vs| == |names|
  {
    if names == [] then []
    else
      var v := vs[|vs| - 1];
      KeptNames(names[..|names| - 1], vs[..|vs| - 1])
        + (if v.Linked? then [names[|names| - 1].(resolvedLocation := Some(v.key))] else [])
  }

  /** The keys `filter_and_resolve` adds to `skipped` for one transform. */
  function SkippedKeys(vs: seq<Verdict>): set<string>
  {
    if vs == [] then {}
    else
      var v := vs[|vs| - 1];
      SkippedKeys(vs[..|vs| - 1]) + (if v.NotInInventory? then {v.key} else {})
  }

  /** The warnings `filter_and_resolve` logs for one transform at `(doc, lineno)`. */
  function NameWarnings(cfg: Settings, doc: string, lineno: int, names: seq<Parse.Name>, vs: seq<Verdict>): seq<Warning>
    requires |vs| == |names|
  {
    if names == [] then []
    else
      NameWarnings(cfg, doc, lineno, names[..|names| - 1], vs[..|vs| - 1])
        + Warned(cfg, doc, lineno, names[|names| - 1], vs[|vs| - 1])
  }

  /** Names with an empty target. */
  function Blank(vs: seq<Verdict>): (n: nat)
    ensures n <= |vs|
  {
    if vs == [] then 0 else Blank(vs[..|vs| - 1]) + (if vs[|vs| - 1].EmptyTarget? then 1 else 0)
  }

  /** Every name of `names` carries a location in the inventory. */
  predicate NamesIn(names: seq<Parse.Name>, inv: map<string, string>)
  {
    forall i :: 0 <= i < |names| ==> names[i].resolvedLocation.Some? && names[i].resolvedLocation.value in inv
  }

  /** Every kept name carries its location, and that location is in the inventory. */
  lemma {:induction false} KeptLocated(names: seq<Parse.Name>, vs: seq<Verdict>, inv: map<string, string>)
    requires |vs| == |names| && Sound(vs, inv)
    ensures NamesIn(KeptNames(names, vs), inv)
    decreases |names|
  {
    if names != [] {
      var front := vs[..|vs| - 1];
      assert Sound(front, inv);
      KeptLocated(names[..|names| - 1], front, inv);
      var a := KeptNames(names[..|names| - 1], front);
      var v := vs[|vs| - 1];
      var b := if v.Linked? then [names[|names| - 1].(resolvedLocation := Some(v.key))] else [];
      assert forall i :: |a| <= i < |a + b| ==> (a + b)[i] == b[i - |a|];
    }
  }

  /** No skipped key is in the inventory. */
  lemma {:induction false} SkippedMissing(vs: seq<Verdict>, inv: map<string, string>)
    requires Sound(vs, inv)
    ensures forall x :: x in SkippedKeys(vs) ==> x !in inv
    decreases |vs|
  {
    if vs != [] {
      var front := vs[..|vs| - 1];
      assert Sound(front, inv);
      SkippedMissing(front, inv);
    }
  }

  /** All warnings of a transform point at it; with both switches off nothing is logged. */
  lemma {:induction false} WarningsLocated(cfg: Settings, doc: string, lineno: int, names: seq<Parse.Name>, vs: seq<Verdict>)
    requires |vs| == |names|
    ensures forall i :: 0 <= i < |NameWarnings(cfg, doc, lineno, names, vs)| ==>
      NameWarnings(cfg, doc, lineno, names, vs)[i].location == Some((doc, lineno))
    ensures !cfg.warnFailedResolve && !cfg.warnMissingInventory ==> NameWarnings(cfg, doc, lineno, names, vs) == []
    decreases |names|
  {
    if names != [] {
      var front := names[..|names| - 1];
      WarningsLocated(cfg, doc, lineno, front, vs[..|vs| - 1]);
      var a := NameWarnings(cfg, doc, lineno, front, vs[..|vs| - 1]);
      var b := Warned(cfg, doc, lineno, names[|names| - 1], vs[|vs| - 1]);
      var ws := NameWarnings(cfg, doc, lineno, names, vs);
      assert ws == a + b;
      forall i | 0 <= i < |ws| ensures ws[i].location == Some((doc, lineno)) {
        if i >= |a| {
          assert ws[i] == b[i - |a|];
        } else {
          assert ws[i] == a[i];
        }
      }
    }
  }

  /** With both switches on, every name is blank, kept or warned about, and only one of these. */
  lemma {:induction false} WarningsAccounted(cfg: Settings, doc: string, lineno: int, names: seq<Parse.Name>, vs: seq<Verdict>)
    requires |vs| == |names| && cfg.warnFailedResolve && cfg.warnMissingInventory
    ensures |KeptNames(names, vs)| + |NameWarnings(cfg, doc, lineno, names, vs)| + Blank(vs) == |names|
    decreases |names|
  {
    if names != [] {
      WarningsAccounted(cfg, doc, lineno, names[..|names| - 1], vs[..|vs| - 1]);
    }
  }

  /** One more name: the three folds grow by that name's verdict. */
  lemma NamesStep(cfg: Settings, doc: string, lineno: int, names: seq<Parse.Name>, vs: seq<Verdict>, i: nat)
    requires |vs| == |names| && i < |names|
    ensures KeptNames(names[..i + 1], vs[..i + 1]) ==
      KeptNames(names[..i], vs[..i]) + (if vs[i].Linked? then [names[i].(resolvedLocation := Some(vs[i].key))] else [])
    ensures SkippedKeys(vs[..i + 1]) == SkippedKeys(vs[..i]) + (if vs[i].NotInInventory? then {vs[i].key} else {})
    ensures NameWarnings(cfg, doc, lineno, names[..i + 1], vs[..i + 1]) ==
      NameWarnings(cfg, doc, lineno, names[..i], vs[..i]) + Warned(cfg, doc, lineno, names[i], vs[i])
  {
    assert names[..i + 1][..i] == names[..i];
    assert vs[..i + 1][..i] == vs[..i];
  }

  /** Filtering keeps order: the names kept of `xs + ys` are those of `xs` followed by those of `ys`. */
  lemma {:induction false} KeptAppend(xs: seq<Parse.Name>, us: seq<Verdict>, ys: seq<Parse.Name>, ws: seq<Verdict>)
    requires |us| == |xs| && |ws| == |ys|
    ensures KeptNames(xs + ys, us + ws) == KeptNames(xs, us) + KeptNames(ys, ws)
    decreases |ys|
  {
    if ys == [] {
      assert xs + ys == xs && us + ws == us;
    } else {
      var front := ys[..|ys| - 1];
      var wfront := ws[..|ws| - 1];
      assert (xs + ys)[..|xs + ys| - 1] == xs + front;
      assert (us + ws)[..|us + ws| - 1] == us + wfront;
      KeptAppend(xs, us, front, wfront);
      var v := ws[|ws| - 1];
      var a := KeptNames(xs, us);
      var b := KeptNames(front, wfront);
      var c := if v.Linked? then [ys[|ys| - 1].(resolvedLocation := Some(v.key))] else [];
      assert a + b + c == a + (b + c);
    }
  }

  /** The kept names are exactly the linked ones, each with its key as its location. */
  lemma {:induction false} KeptExact(names: seq<Parse.Name>, vs: seq<Verdict>, n: Parse.Name)
    requires |vs| == |names|
    ensures n in KeptNames(names, vs) <==>
      exists i :: 0 <= i < |names| && vs[i].Linked? && n == names[i].(resolvedLocation := Some(vs[i].key))
    decreases |names|
  {
    if names != [] {
      var front := names[..|names| - 1];
      var vfront := vs[..|vs| - 1];
      KeptExact(front, vfront, n);
      if exists i :: 0 <= i < |names| && vs[i].Linked? && n == names[i].(resolvedLocation := Some(vs[i].key)) {
        var i :| 0 <= i < |names| && vs[i].Linked? && n == names[i].(resolvedLocation := Some(vs[i].key));
        if i < |front| {
          assert front[i] == names[i] && vfront[i] == vs[i];
        }
      }
      if exists i :: 0 <= i < |front| && vfront[i].Linked? && n == front[i].(resolvedLocation := Some(vfront[i].key)) {
        var i :| 0 <= i < |front| && vfront[i].Linked? && n == front[i].(resolvedLocation := Some(vfront[i].key));
        assert front[i] == names[i] && vfront[i] == vs[i];
      }
    }
  }

  /** The skipped keys are exactly the keys found missing from the inventory. */
  lemma {:induction false} SkippedExact(vs: seq<Verdict>, x: string)
    ensures x in SkippedKeys(vs) <==> exists i :: 0 <= i < |vs| && vs[i] == NotInInventory(x)
    decreases |vs|
  {
    if vs != [] {
      var front := vs[..|vs| - 1];
      SkippedExact(front, x);
      if exists i :: 0 <= i < |vs| && vs[i] == NotInInventory(x) {
        var i :| 0 <= i < |vs| && vs[i] == NotInInventory(x);
        if i < |front| {
          assert front[i] == vs[i];
        }
      }
      if exists i :: 0 <= i < |front| && front[i] == NotInInventory(x) {
        var i :| 0 <= i < |front| && front[i] == NotInInventory(x);
        assert front[i] == vs[i];
      }
    }
  }

  // ---------------------------------------------------------------------
  // The transforms of one document
  // ---------------------------------------------------------------------

  predicate TransformsResolvable(ts: seq<Block.SourceTransform>)
  {
    forall i :: 0 <= i < |ts| ==> AllResolvable(ts[i].names)
  }

  /** Every name of the transforms carries a location in the inventory. */
  predicate Located(ts: seq<Block.SourceTransform>, inv: map<string, string>)
  {
    forall i :: 0 <= i < |ts| ==> NamesIn(ts[i].names, inv)
  }

  /** The transforms after `filter_and_resolve`: same source, example and line, with only the kept names. */
  ghost function FilteredTransforms(cfg: Settings, inv: map<string, string>, ts: seq<Block.SourceTransform>): (r: seq<Block.SourceTransform>)
    requires Resolve.Valid(cfg.graph) && TransformsResolvable(ts)
    ensures |r| == |ts|
  {
    seq(|ts|, i requires 0 <= i < |ts| => ts[i].(names := KeptNames(ts[i].names, Verdicts(cfg, inv, ts[i].names))))
  }

  /** The keys `filter_and_resolve` adds to `skipped` for a document. */
  ghost function TransformsSkipped(cfg: Settings, inv: map<string, string>, ts: seq<Block.SourceTransform>): set<string>
    requires Resolve.Valid(cfg.graph) && TransformsResolvable(ts)
  {
    if ts == [] then {}
    else TransformsSkipped(cfg, inv, ts[..|ts| - 1]) + SkippedKeys(Verdicts(cfg, inv, ts[|ts| - 1].names))
  }

  /** The warnings `filter_and_resolve` logs for a document, transform by transform. */
  ghost function TransformsWarnings(cfg: Settings, inv: map<string, string>, doc: string, ts: seq<Block.SourceTransform>): seq<Warning>
    requires Resolve.Valid(cfg.graph) && TransformsResolvable(ts)
  {
    if ts == [] then []
    else
      var t := ts[|ts| - 1];
      TransformsWarnings(cfg, inv, doc, ts[..|ts| - 1]) + NameWarnings(cfg, doc, t.docLineno, t.names, Verdicts(cfg, inv, t.names))
  }

  /** One more transform: the three document folds grow by that transform's share. */
  lemma TransformsStep(cfg: Settings, inv: map<string, string>, doc: string, ts: seq<Block.SourceTransform>, i: nat)
    requires Resolve.Valid(cfg.graph) && TransformsResolvable(ts) && i < |ts|
    ensures TransformsResolvable(ts[..i]) && TransformsResolvable(ts[..i + 1])
    ensures var vs := Verdicts(cfg, inv, ts[i].names);
      && FilteredTransforms(cfg, inv, ts[..i + 1]) == FilteredTransforms(cfg, inv, ts[..i]) + [ts[i].(names := KeptNames(ts[i].names, vs))]
      && TransformsSkipped(cfg, inv, ts[..i + 1]) == TransformsSkipped(cfg, inv, ts[..i]) + SkippedKeys(vs)
      && TransformsWarnings(cfg, inv, doc, ts[..i + 1]) == TransformsWarnings(cfg, inv, doc, ts[..i]) + NameWarnings(cfg, doc, ts[i].docLineno, ts[i].names, vs)
  {
    assert ts[..i + 1][..i] == ts[..i];
  }

  /** After filtering, every name left in a transform is located in the inventory. */
  lemma FilteredLocated(cfg: Settings, inv: map<string, string>, ts: seq<Block.SourceTransform>)
    requires Resolve.Valid(cfg.graph) && TransformsResolvable(ts)
    ensures Located(FilteredTransforms(cfg, inv, ts), inv)
  {
    var fs := FilteredTransforms(cfg, inv, ts);
    forall i | 0 <= i < |ts| ensures NamesIn(fs[i].names, inv) {
      VerdictsSound(cfg, inv, ts[i].names);
      KeptLocated(ts[i].names, Verdicts(cfg, inv, ts[i].names), inv);
    }
  }

  /** No key a document adds to `skipped` is in the inventory. */
  lemma {:induction false} TransformsSkippedMissing(cfg: Settings, inv: map<string, string>, ts: seq<Block.SourceTransform>)
    requires Resolve.Valid(cfg.graph) && TransformsResolvable(ts)
    ensures forall x :: x in TransformsSkipped(cfg, inv, ts) ==> x !in inv
    decreases |ts|
  {
    if ts != [] {
      var front := ts[..|ts| - 1];
      assert TransformsResolvable(front);
      TransformsSkippedMissing(cfg, inv, front);
      var names := ts[|ts| - 1].names;
      VerdictsSound(cfg, inv, names);
      SkippedMissing(Verdicts(cfg, inv, names), inv);
    }
  }

  // ---------------------------------------------------------------------
  // Grouping the kept names by location
  // ---------------------------------------------------------------------

  /** `code_refs.get(key, [])` */
  function Get(refs: map<string, seq<Backref.CodeExample>>, key: string): seq<Backref.CodeExample>
  {
    if key in refs then refs[key] else []
  }

  predicate NamesLocated(names: seq<Parse.Name>)
  {
    forall j :: 0 <= j < |names| ==> names[j].resolvedLocation.Some?
  }

  /** `code_refs.setdefault(name.resolved_location, []).append(example)` for each name in turn. */
  function AddNames(refs: map<string, seq<Backref.CodeExample>>, names: seq<Parse.Name>, ex: Backref.CodeExample): map<string, seq<Backref.CodeExample>>
    requires NamesLocated(names)
  {
    if names == [] then refs
    else
      var r := AddNames(refs, names[..|names| - 1], ex);
      var key := names[|names| - 1].resolvedLocation.value;
      r[key := Get(r, key) + [ex]]
  }

  predicate AllNamesLocated(ts: seq<Block.SourceTransform>)
  {
    forall i :: 0 <= i < |ts| ==> NamesLocated(ts[i].names)
  }

  /** The grouping loop of `create_references` over one document's transforms. */
  function AddRefs(refs: map<string, seq<Backref.CodeExample>>, ts: seq<Block.SourceTransform>): map<string, seq<Backref.CodeExample>>
    requires AllNamesLocated(ts)
  {
    if ts == [] then refs
    else
      var t := ts[|ts| - 1];
      AddNames(AddRefs(refs, ts[..|ts| - 1]), t.names, t.example)
  }

  /** How many of the names sit at `key`. */
  function Occurrences(names: seq<Parse.Name>, key: string): nat
  {
    if names == [] then 0
    else Occurrences(names[..|names| - 1], key) + (if names[|names| - 1].resolvedLocation == Some(key) then 1 else 0)
  }

  function Repeat(ex: Backref.CodeExample, n: nat): (r: seq<Backref.CodeExample>)
    ensures |r| == n && forall i :: 0 <= i < n ==> r[i] == ex
  {
    seq(n, i => ex)
  }

  /** Reference definition: the examples of `key`, one per name at `key`, transform by transform. */
  function ExamplesFor(ts: seq<Block.SourceTransform>, key: string): seq<Backref.CodeExample>
  {
    if ts == [] then []
    else
      var t := ts[|ts| - 1];
      ExamplesFor(ts[..|ts| - 1], key) + Repeat(t.example, Occurrences(t.names, key))
  }

  lemma {:induction false} AddNamesGet(refs: map<string, seq<Backref.CodeExample>>, names: seq<Parse.Name>, ex: Backref.CodeExample, key: string)
    requires NamesLocated(names)
    ensures Get(AddNames(refs, names, ex), key) == Get(refs, key) + Repeat(ex, Occurrences(names, key))
    ensures key in AddNames(refs, names, ex) <==> key in refs || Occurrences(names, key) > 0
    decreases |names|
  {
    if names == [] {
      assert Get(refs, key) + [] == Get(refs, key);
    } else {
      var front := names[..|names| - 1];
      assert NamesLocated(front);
      AddNamesGet(refs, front, ex, key);
      var n := Occurrences(front, key);
      assert Repeat(ex, n) + [ex] == Repeat(ex, n + 1);
    }
  }

  /**
   * After grouping, a location holds the examples it held before followed,
   * transform by transform, by one copy of a transform's example per name
   * that links to it.
   */
  lemma {:induction false} RefsGrouped(refs: map<string, seq<Backref.CodeExample>>, ts: seq<Block.SourceTransform>, key: string)
    requires AllNamesLocated(ts)
    ensures Get(AddRefs(refs, ts), key) == Get(refs, key) + ExamplesFor(ts, key)
    decreases |ts|
  {
    if ts == [] {
      assert Get(refs, key) + [] == Get(refs, key);
    } else {
      var front := ts[..|ts| - 1];
      var t := ts[|ts| - 1];
      assert AllNamesLocated(front);
      RefsGrouped(refs, front, key);
      AddNamesGet(AddRefs(refs, front), t.names, t.example, key);
      var more := Repeat(t.example, Occurrences(t.names, key));
      assert Get(refs, key) + ExamplesFor(front, key) + more == Get(refs, key) + (ExamplesFor(front, key) + more);
    }
  }

  /** A location is present after grouping exactly when it was before or it receives at least one example. */
  lemma {:induction false} RefsKeys(refs: map<string, seq<Backref.CodeExample>>, ts: seq<Block.SourceTransform>, key: string)
    requires AllNamesLocated(ts)
    ensures key in AddRefs(refs, ts) <==> key in refs || |ExamplesFor(ts, key)| > 0
    decreases |ts|
  {
    if ts != [] {
      var front := ts[..|ts| - 1];
      var t := ts[|ts| - 1];
      assert AllNamesLocated(front);
      RefsKeys(refs, front, key);
      AddNamesGet(AddRefs(refs, front), t.names, t.example, key);
    }
  }

  /** A transform contributes examples to `key` only through a name located at `key`. */
  lemma {:induction false} ExamplesLocated(ts: seq<Block.SourceTransform>, key: string, inv: map<string, string>)
    requires Located(ts, inv) && |ExamplesFor(ts, key)| > 0
    ensures key in inv
    decreases |ts|
  {
    var front := ts[..|ts| - 1];
    var t := ts[|ts| - 1];
    assert NamesIn(t.names, inv);
    if Occurrences(t.names, key) > 0 {
      OccurrencesLocated(t.names, key, inv);
    } else {
      assert Located(front, inv) by {
        forall i | 0 <= i < |front| ensures NamesIn(front[i].names, inv) {
          assert front[i] == ts[i];
        }
      }
      ExamplesLocated(front, key, inv);
    }
  }

  lemma {:induction false} OccurrencesLocated(names: seq<Parse.Name>, key: string, inv: map<string, string>)
    requires NamesIn(names, inv) && Occurrences(names, key) > 0
    ensures key in inv
    decreases |names|
  {
    var front := names[..|names| - 1];
    if names[|names| - 1].resolvedLocation != Some(key) {
      OccurrencesLocated(front, key, inv);
    }
  }

  // ---------------------------------------------------------------------
  // The whole cache
  // ---------------------------------------------------------------------

  /** The transforms of each document, in the order of the cache. */
  type Cache = seq<(string, seq<Block.SourceTransform>)>

  predicate CacheResolvable(cache: Cache)
  {
    forall d :: 0 <= d < |cache| ==> TransformsResolvable(cache[d].1)
  }

  lemma LocatedNames(ts: seq<Block.SourceTransform>, inv: map<string, string>)
    requires Located(ts, inv)
    ensures AllNamesLocated(ts)
  {
    forall i | 0 <= i < |ts| ensures NamesLocated(ts[i].names) {
      assert NamesIn(ts[i].names, inv);
    }
  }

  /** What `filter_and_resolve` makes of one document: its filtered transforms, the keys it skips and the warnings it logs. */
  datatype DocOutcome = DocOutcome(filtered: seq<Block.SourceTransform>, skipped: set<string>, warnings: seq<Warning>)

  ghost function Outcome(cfg: Settings, inv: map<string, string>, doc: string, ts: seq<Block.SourceTransform>): DocOutcome
    requires Resolve.Valid(cfg.graph) && TransformsResolvable(ts)
  {
    DocOutcome(FilteredTransforms(cfg, inv, ts), TransformsSkipped(cfg, inv, ts), TransformsWarnings(cfg, inv, doc, ts))
  }

  /** Every outcome keeps only names located in the inventory and skips only keys missing from it. */
  predicate Sane(os: seq<DocOutcome>, inv: map<string, string>)
  {
    forall d :: 0 <= d < |os| ==> Located(os[d].filtered, inv) && forall x :: x in os[d].skipped ==> x !in inv
  }

  /** Every kept name of every outcome has a location to be grouped under. */
  predicate Groupable(os: seq<DocOutcome>)
  {
    forall d :: 0 <= d < |os| ==> AllNamesLocated(os[d].filtered)
  }

  /** `os` holds the outcome of each document of `docs`, in order. */
  ghost predicate OutcomesOf(cfg: Settings, inv: map<string, string>, docs: Cache, os: seq<DocOutcome>)
    requires Resolve.Valid(cfg.graph) && CacheResolvable(docs)
  {
    && |os| == |docs|
    && (forall d {:trigger Outcome(cfg, inv, docs[d].0, docs[d].1)} :: 0 <= d < |docs| ==> os[d] == Outcome(cfg, inv, docs[d].0, docs[d].1))
    && Sane(os, inv)
    && Groupable(os)
  }

  lemma OutcomesFacts(cfg: Settings, inv: map<string, string>, docs: Cache, os: seq<DocOutcome>)
    requires Resolve.Valid(cfg.graph) && CacheResolvable(docs)
    requires |os| == |docs| && forall d :: 0 <= d < |docs| ==> os[d] == Outcome(cfg, inv, docs[d].0, docs[d].1)
    ensures OutcomesOf(cfg, inv, docs, os)
  {
    forall d | 0 <= d < |os| ensures Located(os[d].filtered, inv) && AllNamesLocated(os[d].filtered) && forall x :: x in os[d].skipped ==> x !in inv {
      FilteredLocated(cfg, inv, docs[d].1);
      LocatedNames(os[d].filtered, inv);
      TransformsSkippedMissing(cfg, inv, docs[d].1);
    }
  }

  /** The outcome of each document, in order. */
  ghost function Outcomes(cfg: Settings, inv: map<string, string>, docs: Cache): (os: seq<DocOutcome>)
    requires Resolve.Valid(cfg.graph) && CacheResolvable(docs)
    ensures OutcomesOf(cfg, inv, docs, os)
  {
    var all := seq(|docs|, d requires 0 <= d < |docs| => Outcome(cfg, inv, docs[d].0, docs[d].1));
    OutcomesFacts(cfg, inv, docs, all);
    var os :| OutcomesOf(cfg, inv, docs, os);
    os
  }

  /** The state the document loop of `create_references` builds. */
  datatype Run = Run(cache: Cache, refs: map<string, seq<Backref.CodeExample>>, skipped: set<string>, warnings: seq<Warning>)

  /** The document loop of `create_references`, given each document's outcome: filtered transforms replace the document's, their names are grouped, skipped keys and warnings pile up. */
  function Fold(refs: map<string, seq<Backref.CodeExample>>, docs: Cache, os: seq<DocOutcome>): (r: Run)
    requires |os| == |docs| && Groupable(os)
    ensures |r.cache| == |docs|
  {
    if docs == [] then Run([], refs, {}, [])
    else
      var prev := Fold(refs, docs[..|docs| - 1], os[..|os| - 1]);
      var o := os[|os| - 1];
      Run(prev.cache + [(docs[|docs| - 1].0, o.filtered)], AddRefs(prev.refs, o.filtered), prev.skipped + o.skipped, prev.warnings + o.warnings)
  }

  /** `create_references` over the whole cache. */
  ghost function DocsPass(cfg: Settings, inv: map<string, string>, docs: Cache, refs: map<string, seq<Backref.CodeExample>>): Run
    requires Resolve.Valid(cfg.graph) && CacheResolvable(docs)
  {
    Fold(refs, docs, Outcomes(cfg, inv, docs))
  }

  /** The cache in the middle of the loop: the first `d` documents done, the rest as they were. */
  lemma ReplaceNext<T>(done: seq<T>, docs: seq<T>, d: nat, x: T)
    requires |done| == d < |docs|
    ensures (done + docs[d..])[d] == docs[d]
    ensures (done + docs[d..])[d := x] == done + [x] + docs[d + 1..]
  {
    assert docs[d..] == [docs[d]] + docs[d + 1..];
  }

  /** The loop over one more document. */
  lemma FoldNext(refs: map<string, seq<Backref.CodeExample>>, docs: Cache, os: seq<DocOutcome>, d: nat)
    requires |os| == |docs| && Groupable(os) && d < |docs|
    ensures Groupable(os[..d]) && Groupable(os[..d + 1])
    ensures var prev := Fold(refs, docs[..d], os[..d]);
      Fold(refs, docs[..d + 1], os[..d + 1]) ==
        Run(prev.cache + [(docs[d].0, os[d].filtered)], AddRefs(prev.refs, os[d].filtered), prev.skipped + os[d].skipped, prev.warnings + os[d].warnings)
  {
    assert docs[..d + 1][..d] == docs[..d];
    assert os[..d + 1][..d] == os[..d];
  }

  lemma {:induction false} FoldSound(refs: map<string, seq<Backref.CodeExample>>, docs: Cache, os: seq<DocOutcome>, inv: map<string, string>)
    requires |os| == |docs| && Groupable(os) && Sane(os, inv)
    ensures var r := Fold(refs, docs, os);
      && |r.cache| == |docs|
      && (forall d :: 0 <= d < |docs| ==> r.cache[d] == (docs[d].0, os[d].filtered))
      && (forall x :: x in r.skipped ==> x !in inv)
    decreases |docs|
  {
    if docs != [] {
      var n := |docs| - 1;
      assert Groupable(os[..n]) && Sane(os[..n], inv);
      FoldSound(refs, docs[..n], os[..n], inv);
    }
  }

  /**
   * The pass keeps every document, in order, with its transforms replaced
   * by the filtered ones, whose names are all located in the inventory; no
   * skipped key is in the inventory.
   */
  lemma DocsPassSound(cfg: Settings, inv: map<string, string>, docs: Cache, refs: map<string, seq<Backref.CodeExample>>)
    requires Resolve.Valid(cfg.graph) && CacheResolvable(docs)
    ensures var r := DocsPass(cfg, inv, docs, refs);
      && |r.cache| == |docs|
      && (forall d :: 0 <= d < |docs| ==> r.cache[d] == (docs[d].0, FilteredTransforms(cfg, inv, docs[d].1)))
      && (forall d :: 0 <= d < |docs| ==> Located(r.cache[d].1, inv))
      && (forall x :: x in r.skipped ==> x !in inv)
  {
    var os := Outcomes(cfg, inv, docs);
    FoldSound(refs, docs, os, inv);
    forall d | 0 <= d < |docs| ensures os[d].filtered == FilteredTransforms(cfg, inv, docs[d].1) {
      var o := Outcome(cfg, inv, docs[d].0, docs[d].1);
    }
  }

  lemma {:induction false} FoldRefs(refs: map<string, seq<Backref.CodeExample>>, docs: Cache, os: seq<DocOutcome>, inv: map<string, string>, key: string)
    requires |os| == |docs| && Groupable(os) && Sane(os, inv)
    ensures key in Fold(refs, docs, os).refs ==> key in refs || key in inv
    decreases |docs|
  {
    if docs != [] {
      var n := |docs| - 1;
      assert Groupable(os[..n]) && Sane(os[..n], inv);
      FoldRefs(refs, docs[..n], os[..n], inv, key);
      var fs := os[n].filtered;
      RefsKeys(Fold(refs, docs[..n], os[..n]).refs, fs, key);
      if |ExamplesFor(fs, key)| > 0 {
        ExamplesLocated(fs, key, inv);
      }
    }
  }

  /** Every location the pass adds to the references is in the inventory: the tables only ever list documented objects. */
  lemma RefsDocumented(cfg: Settings, inv: map<string, string>, docs: Cache, refs: map<string, seq<Backref.CodeExample>>, key: string)
    requires Resolve.Valid(cfg.graph) && CacheResolvable(docs)
    ensures key in DocsPass(cfg, inv, docs, refs).refs ==> key in refs || key in inv
  {
    FoldRefs(refs, docs, Outcomes(cfg, inv, docs), inv, key);
  }

  // ---------------------------------------------------------------------
  // The closing warning
  // ---------------------------------------------------------------------

  /** `s.split(".")[0]` */
  function First(s: string): string
  {
    Split(s, '.')[0]
  }

  lemma StringOrder()
    ensures Sorting.StrictTotalOrder(Less)
  {
    forall a: string ensures !Less(a, a) {
      LessIrreflexive(a);
    }
    forall a: string, b: string, c: string | Less(a, b) && Less(b, c) ensures Less(a, c) {
      LessTransitive(a, b, c);
    }
    forall a: string, b: string ensures a == b || Less(a, b) || Less(b, a) {
      LessTotal(a, b);
    }
  }

  /** Some key of `skipped` lies in top-level module `t`. */
  predicate HasTop(skipped: set<string>, t: string)
  {
    exists s :: s in skipped && First(s) == t
  }

  /** `sorted({s.split(".")[0] for s in skipped})` */
  ghost function SortedTops(skipped: set<string>): (r: seq<string>)
    ensures Sorting.Increasing(r, Less)
    ensures forall t :: t in r <==> HasTop(skipped, t)
    decreases skipped
  {
    if skipped == {} then []
    else
      var s :| s in skipped;
      StringOrder();
      var r := Sorting.Insert(First(s), SortedTops(skipped - {s}), Less);
      assert forall t :: HasTop(skipped, t) <==> t == First(s) || HasTop(skipped - {s}, t);
      r
  }

  /** The top-level modules of the skipped keys, sorted and without repeats. */
  method TopModules(skipped: set<string>) returns (tops: seq<string>)
    ensures tops == SortedTops(skipped)
  {
    StringOrder();
    var seen := {};
    var rest := skipped;
    tops := [];
    while rest != {}
      invariant rest + seen == skipped && rest !! seen
      invariant Sorting.Increasing(tops, Less)
      invariant forall t :: t in tops <==> HasTop(seen, t)
      decreases rest
    {
      var s :| s in rest;
      tops := Sorting.Insert(First(s), tops, Less);
      rest, seen := rest - {s}, seen + {s};
    }
    Sorting.IncreasingUnique(tops, SortedTops(skipped), Less);
  }

  /** `repr` of a module name, quoted as Python quotes a string without quotes in it. */
  function Quoted(tops: seq<string>): (r: seq<string>)
    ensures |r| == |tops|
  {
    seq(|tops|, i requires 0 <= i < |tops| => "'" + tops[i] + "'")
  }

  /** The closing `missing_inventory` warning, listing the modules with skipped keys. */
  function ModulesMessage(tops: seq<string>): string
  {
    "Cannot locate modules: " + Join(Quoted(tops), ", ")
      + MissingModulesHint
  }

  /** The closing warning: only when keys were skipped and missing inventory is warned about. */
  ghost function Closing(cfg: Settings, skipped: set<string>): (ws: seq<Warning>)
    ensures |ws| == 1 <==> skipped != {} && cfg.warnMissingInventory
    ensures |ws| <= 1
  {
    if skipped != {} && cfg.warnMissingInventory then
      [Warning(MissingInventory, ModulesMessage(SortedTops(skipped)), None)]
    else []
  }

  // ---------------------------------------------------------------------
  // The extension object
  // ---------------------------------------------------------------------

  /** `SphinxCodeAutoLink`, reduced to the state the linking pass reads and writes. */
  class CodeAutoLink {
    const settings: Settings
    var doNothing: bool
    /** `cache.transforms`: the transforms of each document. */
    var cache: Cache
    var inventory: map<string, string>
    var codeRefs: map<string, seq<Backref.CodeExample>>
    /** The warnings logged so far. */
    var log: seq<Warning>

    constructor(settings: Settings, doNothing: bool, cache: Cache)
      ensures this.settings == settings && this.doNothing == doNothing && this.cache == cache
      ensures inventory == map[] && codeRefs == map[] && log == []
    {
      this.settings := settings;
      this.doNothing := doNothing;
      this.cache := cache;
      inventory := map[];
      codeRefs := map[];
      log := [];
    }

    /** The loop body of `filter_and_resolve` up to its branches: resolve the name and look its key up. */
    method JudgeName(name: Parse.Name) returns (v: Verdict)
      requires Resolve.Valid(settings.graph) && Resolvable(name)
      ensures v == Judge(settings, inventory, name)
    {
      if name.codeStr == "" {
        return EmptyTarget;
      }
      var located := Resolve.ResolveLocation(settings.graph, inventory.Keys, name);
      match located {
        case Err(e) =>
          v := Unresolved(e);
        case Ok(location) =>
          var key := MapGet(settings.inventoryMap, location);
          v := if key in inventory then Linked(key) else NotInInventory(key);
      }
    }

    /** The `logger.warning` calls of the loop body for a name with verdict `v`. */
    method LogVerdict(doc: string, lineno: int, name: Parse.Name, v: Verdict)
      modifies this`log
      ensures log == old(log) + Warned(settings, doc, lineno, name, v)
    {
      match v {
        case Unresolved(e) =>
          if settings.warnFailedResolve {
            log := log + [Warning(FailedResolve, FailedMessage(name, e), Some((doc, lineno)))];
          }
        case NotInInventory(key) =>
          if settings.warnMissingInventory {
            log := log + [Warning(MissingInventory, MissingMessage(name, key), Some((doc, lineno)))];
          }
        case _ =>
      }
    }

    /** The loop body of `filter_and_resolve` for the name at `i`, whose verdict is `vs[i]`: what it keeps, what it skips and what it logs. */
    method FilterName(doc: string, lineno: int, names: seq<Parse.Name>, i: nat, ghost vs: seq<Verdict>) returns (keep: seq<Parse.Name>, missing: set<string>)
      requires Resolve.Valid(settings.graph) && AllResolvable(names) && i < |names| && JudgedAs(settings, inventory, names, vs)
      modifies this`log
      ensures keep == (if vs[i].Linked? then [names[i].(resolvedLocation := Some(vs[i].key))] else [])
      ensures missing == (if vs[i].NotInInventory? then {vs[i].key} else {})
      ensures log == old(log) + Warned(settings, doc, lineno, names[i], vs[i])
    {
      var name := names[i];
      var v := JudgeName(name);
      assert v == vs[i];
      LogVerdict(doc, lineno, name, v);
      keep, missing := [], {};
      if v.NotInInventory? {
        missing := {v.key};
      } else if v.Linked? {
        keep := [name.(resolvedLocation := Some(v.key))];
      }
    }

    /** The names loop of `filter_and_resolve` for one transform; its warnings go to the log. */
    method FilterNames(doc: string, lineno: int, names: seq<Parse.Name>) returns (kept: seq<Parse.Name>, skipped: set<string>)
      requires Resolve.Valid(settings.graph) && AllResolvable(names)
      modifies this`log
      ensures var vs := Verdicts(settings, inventory, names);
        && kept == KeptNames(names, vs)
        && skipped == SkippedKeys(vs)
        && log == old(log) + NameWarnings(settings, doc, lineno, names, vs)
    {
      ghost var vs := Verdicts(settings, inventory, names);
      kept, skipped := [], {};
      for i := 0 to |names|
        invariant kept == KeptNames(names[..i], vs[..i])
        invariant skipped == SkippedKeys(vs[..i])
        invariant log == old(log) + NameWarnings(settings, doc, lineno, names[..i], vs[..i])
      {
        NamesStep(settings, doc, lineno, names, vs, i);
        ghost var before := NameWarnings(settings, doc, lineno, names[..i], vs[..i]);
        ghost var w := Warned(settings, doc, lineno, names[i], vs[i]);
        assert old(log) + before + w == old(log) + (before + w);
        var keep, missing := FilterName(doc, lineno, names, i, vs);
        kept := kept + keep;
        skipped := skipped + missing;
      }
      assert names[..|names|] == names && vs[..|vs|] == vs;
    }

    /** `filter_and_resolve(transforms, skipped, doc)`: filters the names of each transform. */
    method FilterAndResolve(transforms: seq<Block.SourceTransform>, skipped: set<string>, doc: string)
      returns (filtered: seq<Block.SourceTransform>, skippedOut: set<string>)
      requires Resolve.Valid(settings.graph) && TransformsResolvable(transforms)
      modifies this`log
      ensures filtered == FilteredTransforms(settings, inventory, transforms)
      ensures skippedOut == skipped + TransformsSkipped(settings, inventory, transforms)
      ensures log == old(log) + TransformsWarnings(settings, inventory, doc, transforms)
    {
      filtered, skippedOut := [], skipped;
      for i := 0 to |transforms|
        invariant filtered == FilteredTransforms(settings, inventory, transforms[..i])
        invariant skippedOut == skipped + TransformsSkipped(settings, inventory, transforms[..i])
        invariant log == old(log) + TransformsWarnings(settings, inventory, doc, transforms[..i])
      {
        TransformsStep(settings, inventory, doc, transforms, i);
        var t := transforms[i];
        ghost var done := TransformsWarnings(settings, inventory, doc, transforms[..i]);
        ghost var more := NameWarnings(settings, doc, t.docLineno, t.names, Verdicts(settings, inventory, t.names));
        assert old(log) + done + more == old(log) + (done + more);
        var kept, sk := FilterNames(doc, t.docLineno, t.names);
        filtered := filtered + [t.(names := kept)];
        skippedOut := skippedOut + sk;
      }
      assert transforms[..|transforms|] == transforms;
    }

    /** The grouping loops of `create_references` for one document. */
    method RecordReferences(transforms: seq<Block.SourceTransform>)
      requires AllNamesLocated(transforms)
      modifies this`codeRefs
      ensures codeRefs == AddRefs(old(codeRefs), transforms)
    {
      for i := 0 to |transforms|
        invariant codeRefs == AddRefs(old(codeRefs), transforms[..i])
      {
        assert transforms[..i + 1][..i] == transforms[..i];
        var t := transforms[i];
        ghost var before := codeRefs;
        for j := 0 to |t.names|
          invariant codeRefs == AddNames(before, t.names[..j], t.example)
        {
          assert t.names[..j + 1][..j] == t.names[..j];
          var key := t.names[j].resolvedLocation.value;
          codeRefs := codeRefs[key := Get(codeRefs, key) + [t.example]];
        }
        assert t.names[..|t.names|] == t.names;
      }
      assert transforms[..|transforms|] == transforms;
    }

    /** One document of `create_references`: filter its transforms in the cache, then group their names. */
    method ProcessDocument(d: nat, skipped: set<string>, ghost docs: Cache, ghost os: seq<DocOutcome>) returns (skippedOut: set<string>)
      requires Resolve.Valid(settings.graph) && CacheResolvable(docs) && OutcomesOf(settings, inventory, docs, os)
      requires d < |cache| && d < |docs| && cache[d] == docs[d]
      modifies this`cache, this`codeRefs, this`log
      ensures cache == old(cache)[d := (docs[d].0, os[d].filtered)]
      ensures codeRefs == AddRefs(old(codeRefs), os[d].filtered)
      ensures skippedOut == skipped + os[d].skipped
      ensures log == old(log) + os[d].warnings
    {
      var (doc, transforms) := cache[d];
      assert os[d] == Outcome(settings, inventory, doc, transforms);
      var filtered, sk := FilterAndResolve(transforms, skipped, doc);
      RecordReferences(filtered);
      cache := cache[d := (doc, filtered)];
      skippedOut := sk;
    }

    /** The closing `logger.warning` of `create_references`. */
    method WarnMissingModules(skipped: set<string>)
      modifies this`log
      ensures log == old(log) + Closing(settings, skipped)
    {
      if skipped != {} && settings.warnMissingInventory {
        var tops := TopModules(skipped);
        log := log + [Warning(MissingInventory, ModulesMessage(tops), None)];
      }
    }

    /** The document loop of `create_references`: every document of the cache in turn. */
    method ProcessCache() returns (skipped: set<string>)
      requires Resolve.Valid(settings.graph) && CacheResolvable(cache)
      modifies this`cache, this`codeRefs, this`log
      ensures var run := DocsPass(settings, inventory, old(cache), old(codeRefs));
        && cache == run.cache && codeRefs == run.refs && skipped == run.skipped && log == old(log) + run.warnings
    {
      skipped := {};
      ghost var docs := cache;
      ghost var os := Outcomes(settings, inventory, docs);
      for d := 0 to |cache|
        invariant Groupable(os[..d])
        invariant var run := Fold(old(codeRefs), docs[..d], os[..d]);
          && cache == run.cache + docs[d..] && codeRefs == run.refs && skipped == run.skipped
          && log == old(log) + run.warnings
      {
        FoldNext(old(codeRefs), docs, os, d);
        ghost var run := Fold(old(codeRefs), docs[..d], os[..d]);
        ReplaceNext(run.cache, docs, d, (docs[d].0, os[d].filtered));
        assert old(log) + run.warnings + os[d].warnings == old(log) + (run.warnings + os[d].warnings);
        skipped := ProcessDocument(d, skipped, docs, os);
      }
      assert docs[..|docs|] == docs && os[..|os|] == os && docs[|docs|..] == [];
    }

    /**
     * `create_references(app, env)` with the inventory `make_inventory`
     * built: filters every document's transforms in place, groups the kept
     * names by location and, when keys were skipped, logs the closing
     * warning.
     */
    method CreateReferences(inventory: map<string, string>)
      requires Resolve.Valid(settings.graph) && CacheResolvable(cache)
      modifies this
      ensures doNothing == old(doNothing)
      ensures old(doNothing) ==>
        cache == old(cache) && this.inventory == old(this.inventory) && codeRefs == old(codeRefs) && log == old(log)
      ensures !old(doNothing) ==>
        var run := DocsPass(settings, inventory, old(cache), old(codeRefs));
        && this.inventory == inventory && cache == run.cache && codeRefs == run.refs
        && log == old(log) + run.warnings + Closing(settings, run.skipped)
    {
      if doNothing {
        return;
      }
      this.inventory := inventory;
      var skipped := ProcessCache();
      WarnMissingModules(skipped);
    }
  }
}
