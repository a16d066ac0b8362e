/**
 * What the import tracker promises: which names a statement binds, forgets
 * or records, and which bindings stay inside the construct that made them.
 */
module TrackerProps {
  import opened Wrappers
  import opened Parse
  import opened Tracker
  import Text

  function ResultKind(r: Tracker.Result): Kind
  {
    match r
    case NoResult => KNone
    case Pending(_) => KPending
    case Targets(_) => KTargets
    case Assignment(_, _) => KAssignment
  }

  /** Visiting a node returns the shape `KindOf` predicts, so the shapes `WellFormed` excludes never reach a visit method. */
  lemma {:induction false} VisitKind(env: Env, s: State, n: Node, top: bool)
    requires WellFormed(n)
    ensures ResultKind(Visit(env, s, n, top).1) == KindOf(n)
    decreases n, 1
  {
    if n.AttributeN? || n.CallN? {
      VisitKindChain(env, s, n, top);
    } else if n.TupleN? || n.AssignN? || n.AnnAssignN? || n.NamedExprN? {
      VisitKindCompound(env, s, n, top);
    } else if !n.NameN? && !n.MatchAsN? {
      VisitKindStatement(env, s, n, top);
    }
  }

  lemma {:induction false} VisitKindChain(env: Env, s: State, n: Node, top: bool)
    requires (n.AttributeN? || n.CallN?) && WellFormed(n)
    ensures ResultKind(Visit(env, s, n, top).1) == KindOf(n)
    decreases n, 0
  {
    if n.AttributeN? {
      VisitKind(env, s, n.value, false);
      VisitKindAttribute(env, s, n, top);
    } else {
      VisitKind(env, s, n.func, false);
      VisitKindCall(env, s, n, top);
    }
  }

  lemma VisitKindAttribute(env: Env, s: State, n: Node, top: bool)
    requires n.AttributeN? && WellFormed(n)
    ensures ResultKind(Visit(env, s, n, top).1) == if Visit(env, s, n.value, false).1.Pending? then KPending else KNone
  {
    assert Visit(env, s, n, top) == VisitAttribute(env, s, n, top);
  }

  lemma VisitKindCall(env: Env, s: State, n: Node, top: bool)
    requires n.CallN? && WellFormed(n)
    ensures ResultKind(Visit(env, s, n, top).1) == if Visit(env, s, n.func, false).1.Pending? then KPending else KNone
  {
    assert Visit(env, s, n, top) == VisitCall(env, s, n, top);
  }

  lemma VisitKindCompound(env: Env, s: State, n: Node, top: bool)
    requires (n.TupleN? || n.AssignN? || n.AnnAssignN? || n.NamedExprN?) && WellFormed(n)
    ensures ResultKind(Visit(env, s, n, top).1) == KindOf(n)
  {
  }

  lemma VisitKindStatement(env: Env, s: State, n: Node, top: bool)
    requires !(n.NameN? || n.MatchAsN? || n.AttributeN? || n.CallN? || n.TupleN? || n.AssignN? || n.AnnAssignN? || n.NamedExprN?)
    requires WellFormed(n)
    ensures Visit(env, s, n, top).1 == NoResult
  {
  }

  /** A name visited at the top is a one-component chain, dispatched. */
  lemma VisitName(env: Env, s: State, id: string, line: int, endLine: int, ctx: Ctx, top: bool)
    ensures var c: Chain := [Component(id, line, endLine, ctx)];
      Visit(env, s, NameN(id, line, endLine, ctx), top) == (Track(s, Pending(c), top), Pending(c))
  {
  }

  // ---------------------------------------------------------------------
  // Names at the top

  /** A loaded name records an access from its binding when it is bound, and nothing otherwise; no binding changes. */
  lemma LoadRecordsBoundName(env: Env, s: State, id: string, line: int, endLine: int)
    ensures var t := Visit(env, s, NameN(id, line, endLine, Load), true).0;
      && t.scopes == s.scopes
      && t.accessed == s.accessed
         + (if id in Top(s) then SavedAccesses(s, Access(NoneContext, Top(s)[id], [Component(id, line, endLine, Load)], [])) else [])
  {
  }

  /** A stored name outside an augmented assignment is forgotten and records nothing. */
  lemma StoreForgets(env: Env, s: State, id: string, line: int, endLine: int)
    requires !s.inAugassign
    ensures var t := Visit(env, s, NameN(id, line, endLine, Store), true).0;
      && t.accessed == s.accessed
      && Top(t) == Top(s) - {id}
  {
    var t := Visit(env, s, NameN(id, line, endLine, Store), true).0;
    assert Top(t) == Top(s) - {id};
  }

  /** A deleted name records its use, then is forgotten. */
  lemma DelRecordsThenForgets(env: Env, s: State, id: string, line: int, endLine: int)
    ensures var t := Visit(env, s, NameN(id, line, endLine, Del), true).0;
      && t.accessed == s.accessed
         + (if id in Top(s) then SavedAccesses(s, Access(NoneContext, Top(s)[id], [Component(id, line, endLine, Del)], [])) else [])
      && Top(t) == Top(s) - {id}
  {
    var t := Visit(env, s, NameN(id, line, endLine, Del), true).0;
    assert Top(t) == Top(s) - {id};
  }

  /** The target of an augmented assignment is a use: it records an access and keeps its binding. */
  lemma AugAssignUsesAndKeeps(env: Env, s: State, id: string, line: int, endLine: int, value: Node)
    requires WellFormed(value)
    ensures var s1 := Visit(env, s, value, true).0;
      var t := Visit(env, s, AugAssignN(NameN(id, line, endLine, Store), value), true).0;
      && t.scopes == s1.scopes
      && t.accessed == s1.accessed
         + (if id in Top(s1) then SavedAccesses(s1, Access(NoneContext, Top(s1)[id], [Component(id, line, endLine, Store)], [])) else [])
      && t.inAugassign == s.inAugassign
  {
    var n := AugAssignN(NameN(id, line, endLine, Store), value);
    assert Visit(env, s, n, true).0 == VisitAugAssign(env, s, n);
    var s1 := Visit(env, s, value, true).0;
    VisitName(env, s1.(inAugassign := true), id, line, endLine, Store, true);
  }

  // ---------------------------------------------------------------------
  // Assignments

  /**
   * `x = <chain>` with a bound base: the value's access is recorded, `x` is
   * bound to that access's full components, and the use of `x` is recorded.
   */
  lemma AssignBindsChain(env: Env, s: State, x: string, line: int, endLine: int, value: Node)
    requires WellFormed(value)
    ensures var (s1, v) := Visit(env, s, value, false);
      var t := Visit(env, s, AssignN([NameN(x, line, endLine, Store)], value), true).0;
      v.Pending? && v.chain[0].context == Load && v.chain[0].name in Top(s1) ==>
        var a := Access(NoneContext, Top(s1)[v.chain[0].name], v.chain, []);
        && x in Top(t) && Top(t)[x] == FullComponents(a)
        && t.accessed == s1.accessed + SavedAccesses(s1, a)
           + SavedAccesses(s1, Access(NoneContext, FullComponents(a), [Component(x, line, endLine, Store)], []))
  {
    var target := NameN(x, line, endLine, Store);
    var (s1, v) := Visit(env, s, value, false);
    if v.Pending? && v.chain[0].context == Load && v.chain[0].name in Top(s1) {
      var a := Access(NoneContext, Top(s1)[v.chain[0].name], v.chain, []);
      var xc: Chain := [Component(x, line, endLine, Store)];
      VisitName(env, s1, x, line, endLine, Store, false);
      VisitOneTarget(env, s1, target);
      VisitAssignUnfold(env, s, AssignN([target], value), true);
      DispatchAssignment(s1, [[Some(xc)]], v);
      ResolveBoundLoad(s1, v.chain);
      ResolveOneName(SaveAccess(s1, a), xc, a);
    }
  }

  lemma VisitAssignUnfold(env: Env, s: State, n: Node, top: bool)
    requires n.AssignN? && WellFormed(n)
    ensures var (s1, v) := Visit(env, s, n.value, false);
      var ts := VisitTargetsReversed(env, s1, n.targets).1;
      var s2 := VisitTargetsReversed(env, s1, n.targets).0;
      Visit(env, s, n, top) == (Dispatch(s2, Assignment(ts, v)).0, Assignment(ts, v))
  {
    assert Visit(env, s, n, top) == VisitAssign(env, s, n);
  }

  /** An assignment is resolved by resolving its value, then its targets with the value's access. */
  lemma DispatchAssignment(s: State, ts: seq<seq<Option<Chain>>>, v: Tracker.Result)
    ensures var (s1, a) := Dispatch(s, v);
      Dispatch(s, Assignment(ts, v)).0 == ResolveTargets(s1, ts, a)
  {
  }

  /** A loaded chain whose base is bound is recorded, and its access is passed on. */
  lemma ResolveBoundLoad(s: State, c: Chain)
    requires c[0].context == Load && c[0].name in Top(s)
    ensures var a := Access(NoneContext, Top(s)[c[0].name], c, []);
      Dispatch(s, Pending(c)) == (SaveAccess(s, a), Some(a))
  {
  }

  /** Assigning a value's access to a single name binds the name to the access's full components and records the name's use. */
  lemma ResolveOneName(s: State, c: Chain, a: Access)
    requires |c| == 1
    ensures var t := ResolveTargets(s, [[Some(c)]], Some(a));
      && c[0].name in Top(t) && Top(t)[c[0].name] == FullComponents(a)
      && Top(t) == Top(s)[c[0].name := FullComponents(a)]
      && t.accessed == s.accessed + SavedAccesses(s, Access(NoneContext, FullComponents(a), c, []))
  {
    var s1 := ResolveTarget(s, Some(c), Some(a));
    assert ResolveElements(s, [Some(c)], Some(a)) == s1 by {
      assert [Some(c)][1..] == [];
      assert ResolveElements(s1, [], Some(a)) == s1;
    }
    assert ResolveTargets(s, [[Some(c)]], Some(a)) == s1 by {
      assert [[Some(c)]][1..] == [];
      assert ResolveTargets(s1, [], Some(a)) == s1;
    }
  }

  /** A single assignment target contributes its own elements. */
  lemma VisitOneTarget(env: Env, s: State, target: Node)
    requires WellFormed(target)
    ensures var (s1, t) := Visit(env, s, target, false);
      VisitTargetsReversed(env, s, [target]) == (s1, [Elements(t)])
  {
    assert [target][1..] == [];
    assert VisitTargetsReversed(env, s, []) == (s, []);
    var (s1, t) := Visit(env, s, target, false);
    assert VisitTargetsReversed(env, s, [target]) == (s1, [] + [Elements(t)]);
    assert [] + [Elements(t)] == [Elements(t)];
  }

  /** A stored pair contributes both elements. */
  lemma VisitStorePair(env: Env, s: State, x: Node, y: Node)
    requires WellFormed(x) && WellFormed(y)
    ensures var (s1, rx) := Visit(env, s, x, false);
      var (s2, ry) := Visit(env, s1, y, false);
      VisitStoreElements(env, s, [x, y]) == (s2, Elements(rx) + Elements(ry))
  {
    var (s1, rx) := Visit(env, s, x, false);
    var (s2, ry) := Visit(env, s1, y, false);
    assert [x, y][1..] == [y];
    assert [y][1..] == [];
    assert VisitStoreElements(env, s2, []) == (s2, []);
    assert VisitStoreElements(env, s1, [y]) == (s2, Elements(ry) + []);
    assert Elements(ry) + [] == Elements(ry);
  }

  /** `x, y = value`: the value is resolved, and each unpacked name is forgotten rather than bound. */
  lemma UnpackingForgets(env: Env, s: State, x: string, y: string, line: int, endLine: int, value: Node)
    requires WellFormed(AssignN([TupleN([NameN(x, line, endLine, Store), NameN(y, line, endLine, Store)], Store)], value))
    ensures var (s1, v) := Visit(env, s, value, false);
      var s2 := Dispatch(s1, v).0;
      var tuple := TupleN([NameN(x, line, endLine, Store), NameN(y, line, endLine, Store)], Store);
      var t := Visit(env, s, AssignN([tuple], value), true).0;
      && t.accessed == s2.accessed
      && x !in Top(t) && y !in Top(t)
      && forall k :: k != x && k != y ==> (k in Top(t) <==> k in Top(s2))
  {
    var xn := NameN(x, line, endLine, Store);
    var yn := NameN(y, line, endLine, Store);
    var tuple := TupleN([xn, yn], Store);
    var n := AssignN([tuple], value);
    var (s1, v) := Visit(env, s, value, false);
    var xc: Chain := [Component(x, line, endLine, Store)];
    var yc: Chain := [Component(y, line, endLine, Store)];
    var es: seq<Option<Chain>> := [Some(xc), Some(yc)];
    VisitNamePair(env, s1, x, y, line, endLine);
    VisitOneTarget(env, s1, tuple);
    VisitAssignUnfold(env, s, n, true);
    DispatchAssignment(s1, [es], v);
    var (s2, a) := Dispatch(s1, v);
    UnpackForgetsPair(s2, xc, yc, a);
  }

  /** A stored pair of names holds both names' one-component chains and changes nothing. */
  lemma VisitNamePair(env: Env, s: State, x: string, y: string, line: int, endLine: int)
    ensures var xc: Chain := [Component(x, line, endLine, Store)];
      var yc: Chain := [Component(y, line, endLine, Store)];
      var tuple := TupleN([NameN(x, line, endLine, Store), NameN(y, line, endLine, Store)], Store);
      Visit(env, s, tuple, false) == (s, Targets([Some(xc), Some(yc)]))
  {
    var xn := NameN(x, line, endLine, Store);
    var yn := NameN(y, line, endLine, Store);
    var tuple := TupleN([xn, yn], Store);
    var xc: Chain := [Component(x, line, endLine, Store)];
    var yc: Chain := [Component(y, line, endLine, Store)];
    VisitName(env, s, x, line, endLine, Store, false);
    VisitName(env, s, y, line, endLine, Store, false);
    VisitStorePair(env, s, xn, yn);
    assert Elements(Pending(xc)) + Elements(Pending(yc)) == [Some(xc), Some(yc)];
    assert Visit(env, s, tuple, false) == VisitTuple(env, s, tuple);
  }

  /** An unpacking target of two names receives no value: both names are forgotten. */
  lemma UnpackForgetsPair(s: State, xc: Chain, yc: Chain, a: Option<Access>)
    requires |xc| == 1 && |yc| == 1
    ensures var t := ResolveTargets(s, [[Some(xc), Some(yc)]], a);
      && t.accessed == s.accessed
      && xc[0].name !in Top(t) && yc[0].name !in Top(t)
      && forall k :: k != xc[0].name && k != yc[0].name ==> (k in Top(t) <==> k in Top(s))
  {
    var es: seq<Option<Chain>> := [Some(xc), Some(yc)];
    var s1 := OverwriteName(s, xc[0].name);
    var s2 := OverwriteName(s1, yc[0].name);
    assert ResolveElements(s, es, None) == s2 by {
      assert es[1..] == [Some(yc)];
      assert [Some(yc)][1..] == [];
      assert ResolveElements(s2, [], None) == s2;
      assert ResolveElements(s1, [Some(yc)], None) == s2;
    }
    assert ResolveTargets(s, [es], a) == s2 by {
      assert [es][1..] == [];
      assert ResolveTargets(s2, [], a) == s2;
    }
  }

  // ---------------------------------------------------------------------
  // Imports

  /** The keys the imports of `aliases` bind, in order. */
  function BoundNames(aliases: seq<Alias>): (r: seq<string>)
    ensures |r| == |aliases|
    ensures forall i :: 0 <= i < |aliases| ==> r[i] == BoundName(aliases[i])
  {
    seq(|aliases|, i requires 0 <= i < |aliases| => BoundName(aliases[i]))
  }

  /** The innermost scope after importing `aliases`: each key bound in turn to its import chain. */
  function ImportedScope(sc: Scope, aliases: seq<Alias>, prefix: string, line: int, endLine: int): Scope
    decreases |aliases|
  {
    if |aliases| == 0 then sc
    else
      var al := aliases[0];
      ImportedScope(sc[BoundName(al) := ImportChain(al, prefix, line, endLine)], aliases[1..], prefix, line, endLine)
  }

  /** The import loop leaves exactly `ImportedScope` as the innermost scope. */
  lemma {:induction false} ImportNamesScope(s: State, aliases: seq<Alias>, star: bool, prefix: string, prefixComps: seq<Component>, line: int, endLine: int)
    ensures Top(ImportNames(s, aliases, star, prefix, prefixComps, line, endLine)) == ImportedScope(Top(s), aliases, prefix, line, endLine)
    decreases |aliases|
  {
    if |aliases| > 0 {
      var al := aliases[0];
      var s1 := if star then s
        else SaveAccess(s, Access(ImportTarget, [], Comps(Text.Split(al.name, '.'), line, endLine, Load), prefixComps));
      var s2 := AssignName(s1, BoundName(al), ImportChain(al, prefix, line, endLine));
      ImportNamesScope(s2, aliases[1..], star, prefix, prefixComps, line, endLine);
    }
  }

  /** Importing binds exactly the aliases' keys and leaves every other key alone. */
  lemma {:induction false} ImportedScopeKeys(sc: Scope, aliases: seq<Alias>, prefix: string, line: int, endLine: int)
    ensures var r := ImportedScope(sc, aliases, prefix, line, endLine);
      && (forall k :: k in r <==> k in sc || k in BoundNames(aliases))
      && (forall k :: k in sc && k !in BoundNames(aliases) ==> r[k] == sc[k])
    decreases |aliases|
  {
    if |aliases| > 0 {
      var al := aliases[0];
      var sc1 := sc[BoundName(al) := ImportChain(al, prefix, line, endLine)];
      ImportedScopeKeys(sc1, aliases[1..], prefix, line, endLine);
      assert ImportedScope(sc, aliases, prefix, line, endLine) == ImportedScope(sc1, aliases[1..], prefix, line, endLine);
      assert BoundNames(aliases) == [BoundName(al)] + BoundNames(aliases[1..]);
      forall k ensures k in sc1 || k in BoundNames(aliases[1..]) <==> k in sc || k in BoundNames(aliases) {
        assert k in BoundNames(aliases) <==> k == BoundName(al) || k in BoundNames(aliases[1..]);
      }
    }
  }

  /** `r` binds `k` to the import chain of an alias of `aliases` whose key is `k`. */
  predicate ChainFromAlias(r: Scope, aliases: seq<Alias>, k: string, prefix: string, line: int, endLine: int)
  {
    k in r && exists i :: 0 <= i < |aliases| && BoundName(aliases[i]) == k && r[k] == ImportChain(aliases[i], prefix, line, endLine)
  }

  /** Each key an import binds holds the chain of an alias with that key. */
  lemma {:induction false} ImportedScopeChains(sc: Scope, aliases: seq<Alias>, prefix: string, line: int, endLine: int)
    ensures forall k :: k in BoundNames(aliases) ==>
      ChainFromAlias(ImportedScope(sc, aliases, prefix, line, endLine), aliases, k, prefix, line, endLine)
    decreases |aliases|
  {
    if |aliases| > 0 {
      var al := aliases[0];
      var rest := aliases[1..];
      var sc1 := sc[BoundName(al) := ImportChain(al, prefix, line, endLine)];
      var r := ImportedScope(sc1, rest, prefix, line, endLine);
      assert ImportedScope(sc, aliases, prefix, line, endLine) == r;
      ImportedScopeChains(sc1, rest, prefix, line, endLine);
      ImportedScopeKeys(sc1, rest, prefix, line, endLine);
      assert BoundNames(aliases) == [BoundName(al)] + BoundNames(rest);
      forall k | k in BoundNames(aliases) ensures ChainFromAlias(r, aliases, k, prefix, line, endLine) {
        if k in BoundNames(rest) {
          assert ChainFromAlias(r, rest, k, prefix, line, endLine);
          var j :| 0 <= j < |rest| && BoundName(rest[j]) == k && r[k] == ImportChain(rest[j], prefix, line, endLine);
          assert aliases[j + 1] == rest[j];
        } else {
          assert k == BoundName(al) && r[k] == sc1[k];
          assert BoundName(aliases[0]) == k && r[k] == ImportChain(aliases[0], prefix, line, endLine);
        }
      }
    }
  }

  /** A star import's loop records nothing. */
  lemma {:induction false} ImportNamesStar(s: State, aliases: seq<Alias>, prefix: string, prefixComps: seq<Component>, line: int, endLine: int)
    ensures ImportNames(s, aliases, true, prefix, prefixComps, line, endLine).accessed == s.accessed
    decreases |aliases|
  {
    if |aliases| > 0 {
      var al := aliases[0];
      ImportNamesStar(AssignName(s, BoundName(al), ImportChain(al, prefix, line, endLine)), aliases[1..], prefix, prefixComps, line, endLine);
    }
  }

  /** `from m import ...` at level 0 is `visit_Import` with the prefix `m.`. */
  lemma VisitImportFromUnfold(env: Env, s: State, m: string, names: seq<Alias>, line: int, endLine: int, top: bool)
    requires |names| >= 1
    ensures Visit(env, s, ImportFromN(m, names, 0, line, endLine), top)
      == (VisitImport(env, s, m, names, m + ".", line, endLine), NoResult)
  {
    var n := ImportFromN(m, names, 0, line, endLine);
    assert WellFormed(n);
  }

  /** The last import of a loop that binds nothing else: the loop ends there. */
  lemma ImportNamesOne(s: State, al: Alias, star: bool, prefix: string, prefixComps: seq<Component>, line: int, endLine: int)
    ensures var s1 := if star then s
        else SaveAccess(s, Access(ImportTarget, [], Comps(Text.Split(al.name, '.'), line, endLine, Load), prefixComps));
      ImportNames(s, [al], star, prefix, prefixComps, line, endLine)
        == AssignName(s1, BoundName(al), ImportChain(al, prefix, line, endLine))
  {
    assert [al][1..] == [];
  }

  /** `import a.b [as c]`: the path is recorded as an import target, and one key is bound to the import chain. */
  lemma ImportOne(env: Env, s: State, al: Alias, line: int, endLine: int)
    requires al.name != "*"
    ensures var t := Visit(env, s, ImportN([al], line, endLine), true).0;
      && Top(t) == Top(s)[BoundName(al) := ImportChain(al, "", line, endLine)]
      && t.accessed == s.accessed + SavedAccesses(s, Access(ImportTarget, [], Comps(Text.Split(al.name, '.'), line, endLine, Load), []))
      && t.warnings == s.warnings
  {
    ImportNamesOne(s, al, false, "", [], line, endLine);
    var t := Visit(env, s, ImportN([al], line, endLine), true).0;
    assert Top(t) == Top(s)[BoundName(al) := ImportChain(al, "", line, endLine)];
  }

  /** `import a.b` without `as` binds only `a`, to itself. */
  lemma ImportDottedBindsFirstPart(al: Alias, line: int, endLine: int)
    requires Unaliased(al) && '.' in al.name
    ensures var first := Text.Split(al.name, '.')[0];
      && BoundName(al) == first
      && ImportChain(al, "", line, endLine) == [Component(first, line, endLine, Store)]
  {
    var first := Text.Split(al.name, '.')[0];
    Text.SplitFree(first, '.');
    assert "" + first == first;
  }

  /** The module path of `from m import x` once the trailing dot of the prefix is stripped. */
  lemma ModulePrefix(m: string)
    requires |m| > 0 && m[|m| - 1] != '.'
    ensures RStrip(m + ".", '.') == m
  {
    assert (m + ".")[..|m|] == m;
  }

  /** The dotted path `m.x` of a name `x` imported from `m`. */
  lemma FromPath(m: string, x: string)
    requires '.' !in x
    ensures Text.Split(m + "." + x, '.') == Text.Split(m, '.') + [x]
  {
    assert m + "." + x == m + ['.'] + x;
    Text.SplitConcat(m, x, '.');
    Text.SplitFree(x, '.');
  }

  /**
   * `from m import x [as y]`: the module path is recorded, then `x` as an
   * import target below it, and the key is bound to the path `m.x`.
   */
  lemma FromImportOne(env: Env, s: State, m: string, al: Alias, line: int, endLine: int)
    requires al.name != "*" && '.' !in al.name
    requires |m| > 0 && m[|m| - 1] != '.'
    ensures var t := Visit(env, s, ImportFromN(m, [al], 0, line, endLine), true).0;
      var path := Comps(Text.Split(m, '.'), line, endLine, Load);
      && Top(t) == Top(s)[BoundName(al) := Comps(Text.Split(m, '.') + [al.name], line, endLine, Store)]
      && t.accessed == s.accessed + SavedAccesses(s, Access(ImportFrom, [], path, []))
         + SavedAccesses(s, Access(ImportTarget, [], [Component(al.name, line, endLine, Load)], path))
      && t.warnings == s.warnings
  {
    VisitImportFromUnfold(env, s, m, [al], line, endLine, true);
    FromImportUnfold(env, s, m, al, line, endLine);
    FromImportState(s, m, al, line, endLine);
  }

  /** `from m import x` records the module path, then runs the loop over `x`. */
  lemma FromImportUnfold(env: Env, s: State, m: string, al: Alias, line: int, endLine: int)
    requires al.name != "*"
    requires |m| > 0 && m[|m| - 1] != '.'
    ensures var path := Comps(Text.Split(m, '.'), line, endLine, Load);
      VisitImport(env, s, m, [al], m + ".", line, endLine)
        == ImportNames(SaveAccess(s, Access(ImportFrom, [], path, [])), [al], false, m + ".", path, line, endLine)
  {
    ModulePrefix(m);
  }

  /** The loop of `from m import x`, after the module path is recorded. */
  lemma FromImportState(s: State, m: string, al: Alias, line: int, endLine: int)
    requires '.' !in al.name
    ensures var path := Comps(Text.Split(m, '.'), line, endLine, Load);
      var t := ImportNames(SaveAccess(s, Access(ImportFrom, [], path, [])), [al], false, m + ".", path, line, endLine);
      && Top(t) == Top(s)[BoundName(al) := Comps(Text.Split(m, '.') + [al.name], line, endLine, Store)]
      && t.accessed == s.accessed + SavedAccesses(s, Access(ImportFrom, [], path, []))
         + SavedAccesses(s, Access(ImportTarget, [], [Component(al.name, line, endLine, Load)], path))
      && t.warnings == s.warnings
  {
    FromPath(m, al.name);
    Text.SplitFree(al.name, '.');
    var path := Comps(Text.Split(m, '.'), line, endLine, Load);
    var s1 := SaveAccess(s, Access(ImportFrom, [], path, []));
    ImportNamesOne(s1, al, false, m + ".", path, line, endLine);
    assert Comps(Text.Split(al.name, '.'), line, endLine, Load) == [Component(al.name, line, endLine, Load)];
  }

  /** A relative import only forgets the names it imports and records nothing. */
  lemma RelativeImportForgets(env: Env, s: State, m: string, names: seq<Alias>, level: nat, line: int, endLine: int)
    requires level > 0
    ensures var t := Visit(env, s, ImportFromN(m, names, level, line, endLine), true).0;
      && t.accessed == s.accessed
      && (forall i :: 0 <= i < |names| ==> (if Unaliased(names[i]) then names[i].name else names[i].asname.value) !in Top(t))
      && (forall k :: k !in RelativeNames(names) ==> (k in Top(t) <==> k in Top(s)))
  {
    var rn := RelativeNames(names);
    forall i | 0 <= i < |names|
      ensures rn[i] == if Unaliased(names[i]) then names[i].name else names[i].asname.value
    {
    }
  }

  /** A star import from a module that cannot be imported warns, records the module path and binds nothing. */
  lemma FailedStarImport(env: Env, s: State, m: string, line: int, endLine: int)
    requires m !in env.modules
    requires |m| > 0 && m[|m| - 1] != '.'
    ensures var t := Visit(env, s, ImportFromN(m, [Alias("*", None)], 0, line, endLine), true).0;
      && Top(t) == Top(s)
      && t.warnings == s.warnings + [StarImportWarning(m)]
      && t.accessed == s.accessed + SavedAccesses(s, Access(ImportFrom, [], Comps(Text.Split(m, '.'), line, endLine, Load), []))
  {
    ModulePrefix(m);
    VisitImportFromUnfold(env, s, m, [Alias("*", None)], line, endLine, true);
  }

  /**
   * A star import binds every public name of the module to the path
   * `m.name`, keeps every other binding, and records only the module path.
   */
  lemma StarImportBindsPublicNames(env: Env, s: State, m: string, line: int, endLine: int)
    requires m in env.modules
    requires |m| > 0 && m[|m| - 1] != '.'
    requires forall x :: x in env.modules[m] ==> '.' !in x
    ensures var t := Visit(env, s, ImportFromN(m, [Alias("*", None)], 0, line, endLine), true).0;
      var public := PublicNames(env.modules[m]);
      && (forall k :: k in Top(t) <==> k in Top(s) || k in public)
      && (forall k :: k in public ==> Top(t)[k] == Comps(Text.Split(m, '.') + [k], line, endLine, Store))
      && (forall k :: k in Top(s) && k !in public ==> Top(t)[k] == Top(s)[k])
      && t.accessed == s.accessed + SavedAccesses(s, Access(ImportFrom, [], Comps(Text.Split(m, '.'), line, endLine, Load), []))
      && t.warnings == s.warnings
  {
    VisitImportFromUnfold(env, s, m, [Alias("*", None)], line, endLine, true);
    StarImportUnfold(env, s, m, line, endLine);
    StarImportState(s, m, PublicNames(env.modules[m]), line, endLine);
  }

  /** A star import from an importable module records the module path, then runs the loop over its public names. */
  lemma StarImportUnfold(env: Env, s: State, m: string, line: int, endLine: int)
    requires m in env.modules
    requires |m| > 0 && m[|m| - 1] != '.'
    ensures var path := Comps(Text.Split(m, '.'), line, endLine, Load);
      VisitImport(env, s, m, [Alias("*", None)], m + ".", line, endLine)
        == ImportNames(SaveAccess(s, Access(ImportFrom, [], path, [])), Unaliases(PublicNames(env.modules[m])), true, m + ".", path, line, endLine)
  {
    ModulePrefix(m);
  }

  /** Importing the unaliased `public` names under `m.` binds each to the path `m.name` and keeps every other key. */
  lemma StarScope(sc: Scope, m: string, public: seq<string>, line: int, endLine: int)
    requires forall x :: x in public ==> '.' !in x
    ensures var r := ImportedScope(sc, Unaliases(public), m + ".", line, endLine);
      && (forall k :: k in r <==> k in sc || k in public)
      && (forall k :: k in public ==> r[k] == Comps(Text.Split(m, '.') + [k], line, endLine, Store))
      && (forall k :: k in sc && k !in public ==> r[k] == sc[k])
  {
    var aliases := Unaliases(public);
    var r := ImportedScope(sc, aliases, m + ".", line, endLine);
    ImportedScopeKeys(sc, aliases, m + ".", line, endLine);
    ImportedScopeChains(sc, aliases, m + ".", line, endLine);
    assert BoundNames(aliases) == public;
    forall k | k in public
      ensures r[k] == Comps(Text.Split(m, '.') + [k], line, endLine, Store)
    {
      assert ChainFromAlias(r, aliases, k, m + ".", line, endLine);
      var i :| 0 <= i < |aliases| && BoundName(aliases[i]) == k && r[k] == ImportChain(aliases[i], m + ".", line, endLine);
      FromPath(m, k);
    }
  }

  /** The loop of a star import over the names `public`, after the module path is recorded. */
  lemma StarImportState(s: State, m: string, public: seq<string>, line: int, endLine: int)
    requires forall x :: x in public ==> '.' !in x
    ensures var path := Comps(Text.Split(m, '.'), line, endLine, Load);
      var t := ImportNames(SaveAccess(s, Access(ImportFrom, [], path, [])), Unaliases(public), true, m + ".", path, line, endLine);
      && (forall k :: k in Top(t) <==> k in Top(s) || k in public)
      && (forall k :: k in public ==> Top(t)[k] == Comps(Text.Split(m, '.') + [k], line, endLine, Store))
      && (forall k :: k in Top(s) && k !in public ==> Top(t)[k] == Top(s)[k])
      && t.accessed == s.accessed + SavedAccesses(s, Access(ImportFrom, [], path, []))
      && t.warnings == s.warnings
  {
    var aliases := Unaliases(public);
    var path := Comps(Text.Split(m, '.'), line, endLine, Load);
    var s1 := SaveAccess(s, Access(ImportFrom, [], path, []));
    assert Top(s1) == Top(s);
    ImportNamesScope(s1, aliases, true, m + ".", path, line, endLine);
    StarScope(Top(s), m, public, line, endLine);
    ImportNamesStar(s1, aliases, m + ".", path, line, endLine);
  }

  // ---------------------------------------------------------------------
  // `global` and `nonlocal`

  /** `global x` in a function binds `x` to the module scope's chain and records its use, or forgets `x`. */
  lemma GlobalBindsFromOutermost(env: Env, s: State, name: string, line: int)
    requires |s.outer| >= 1
    ensures var t := Visit(env, s, GlobalN([name], line), true).0;
      var imports := s.outer[0];
      && (name in imports ==>
        && name in Top(t) && Top(t)[name] == imports[name]
        && t.accessed == s.accessed + SavedAccesses(s, Access(NoneContext, imports[name], [Component(name, line, line, Load)], [])))
      && (name !in imports ==> name !in Top(t) && t.accessed == s.accessed)
      && forall k :: k != name ==> (k in Top(t) <==> k in Top(s))
  {
    var imports := s.outer[0];
    var s1 := if name in imports then BindFrom(s, name, imports, line) else OverwriteName(s, name);
    assert GlobalNames(s, [name], imports, line) == s1 by {
      assert [name][1..] == [];
      assert GlobalNames(s1, [], imports, line) == s1;
    }
  }

  /** `global` outside a function changes nothing. */
  lemma GlobalAtModuleLevel(env: Env, s: State, names: seq<string>, line: int)
    requires |s.outer| == 0
    ensures Visit(env, s, GlobalN(names, line), true).0 == s
  {
  }

  /** `nonlocal x` binds `x` to the chain of the innermost enclosing function scope that binds it, or forgets `x`. */
  lemma NonlocalBindsInnermost(env: Env, s: State, name: string, line: int)
    ensures var t := Visit(env, s, NonlocalN([name], line), true).0;
      var stack := if |s.outer| == 0 then [] else s.outer[1..];
      && (match Innermost(stack, name)
          case Some(sc) =>
            && name in Top(t) && Top(t)[name] == sc[name]
            && t.accessed == s.accessed + SavedAccesses(s, Access(NoneContext, sc[name], [Component(name, line, line, Load)], []))
          case None => name !in Top(t) && t.accessed == s.accessed)
      && forall k :: k != name ==> (k in Top(t) <==> k in Top(s))
  {
    var stack := if |s.outer| == 0 then [] else s.outer[1..];
    var s1 := match Innermost(stack, name)
      case Some(sc) => BindFrom(s, name, sc, line)
      case None => OverwriteName(s, name);
    assert NonlocalNames(s, [name], stack, line) == s1 by {
      assert [name][1..] == [];
      assert NonlocalNames(s1, [], stack, line) == s1;
    }
  }


  // ---------------------------------------------------------------------
  // `for` loops and match patterns

  /** The loaded chain `a.b`. */
  function DottedLoad(a: string, b: string, line: int, endLine: int): (n: Node)
    ensures n == AttributeN(NameN(a, line, endLine, Load), b, line, endLine, Load)
    ensures WellFormed(n) && KindOf(n) == KPending
  {
    var base := NameN(a, line, endLine, Load);
    assert WellFormed(base) && KindOf(base) == KPending;
    AttributeN(base, b, line, endLine, Load)
  }

  /** The class pattern `a.C(attr=p)`. */
  function KeywordClassPattern(a: string, c: string, attr: string, p: Node, line: int, endLine: int): (n: Node)
    requires p.MatchAsN?
    ensures n == MatchClassN(DottedLoad(a, c, line, endLine), [], [attr], [p], line, endLine)
    ensures WellFormed(n)
  {
    assert IsPattern([p][0]) && WellFormed([p][0]);
    MatchClassN(DottedLoad(a, c, line, endLine), [], [attr], [p], line, endLine)
  }

  /** The loop `for x in a.b: pass`. */
  function ForOverDotted(x: string, a: string, b: string, line: int, endLine: int): (n: Node)
    ensures n == ForN(NameN(x, line, endLine, Store), DottedLoad(a, b, line, endLine), [], [])
    ensures WellFormed(n)
  {
    var target := NameN(x, line, endLine, Store);
    assert WellFormed(target) && AllWellFormed([]);
    ForN(target, DottedLoad(a, b, line, endLine), [], [])
  }

  /** The class pattern `C(x)`. */
  function CaptureClassPattern(c: string, x: string, line: int, endLine: int, pLine: int, pEndLine: int): (n: Node)
    ensures n == MatchClassN(NameN(c, line, endLine, Load), [MatchAsN(Some(x), pLine, pEndLine)], [], [], line, endLine)
    ensures WellFormed(n)
  {
    var p := MatchAsN(Some(x), pLine, pEndLine);
    assert IsPattern([p][0]) && WellFormed([p][0]);
    assert WellFormed(NameN(c, line, endLine, Load));
    MatchClassN(NameN(c, line, endLine, Load), [p], [], [], line, endLine)
  }

  /** A loaded `a.b` at the top records the chain from the binding of `a`, when `a` is bound; no binding changes. */
  lemma LoadAttributeRecords(env: Env, s: State, a: string, b: string, line: int, endLine: int)
    ensures var (t, r) := Visit(env, s, DottedLoad(a, b, line, endLine), true);
      var c: Chain := [Component(a, line, endLine, Load), Component(b, line, endLine, Load)];
      && r == Pending(c)
      && t == if a in Top(s) then SaveAccess(s, Access(NoneContext, Top(s)[a], c, [])) else s
  {
    var n := AttributeN(NameN(a, line, endLine, Load), b, line, endLine, Load);
    assert Visit(env, s, n, true) == VisitAttribute(env, s, n, true);
    VisitName(env, s, a, line, endLine, Load, false);
    assert [Component(a, line, endLine, Load)] + [Component(b, line, endLine, Load)]
      == [Component(a, line, endLine, Load), Component(b, line, endLine, Load)];
  }

  /** `for x in a.b: pass`: the iterable is recorded from the binding `a` had before the loop, then `x` is forgotten. */
  lemma ForRecordsIterThenForgets(env: Env, s: State, x: string, a: string, b: string, line: int, endLine: int)
    requires !s.inAugassign
    ensures var n := ForOverDotted(x, a, b, line, endLine);
      var t := Visit(env, s, n, true).0;
      var c: Chain := [Component(a, line, endLine, Load), Component(b, line, endLine, Load)];
      && t.accessed == s.accessed + (if a in Top(s) then SavedAccesses(s, Access(NoneContext, Top(s)[a], c, [])) else [])
      && Top(t) == Top(s) - {x}
  {
    ForUnfold(env, s, x, a, b, line, endLine);
    LoadAttributeRecords(env, s, a, b, line, endLine);
    StoreForgets(env, Visit(env, s, DottedLoad(a, b, line, endLine), true).0, x, line, endLine);
  }

  /** A loop with an empty body visits its iterable, then its target. */
  lemma ForUnfold(env: Env, s: State, x: string, a: string, b: string, line: int, endLine: int)
    ensures var s1 := Visit(env, s, DottedLoad(a, b, line, endLine), true).0;
      Visit(env, s, ForOverDotted(x, a, b, line, endLine), true).0 == Visit(env, s1, NameN(x, line, endLine, Store), true).0
  {
    var n := ForOverDotted(x, a, b, line, endLine);
    assert Visit(env, s, n, true).0 == VisitFor(env, s, n);
    var s2 := Visit(env, Visit(env, s, n.iter, true).0, n.forTarget, true).0;
    assert VisitAll(env, VisitAll(env, s2, []), []) == s2;
  }

  /** `case x:` forgets `x`, as a stored name does, and records nothing. */
  lemma CaptureForgets(env: Env, s: State, x: string, line: int, endLine: int)
    requires !s.inAugassign
    ensures var t := Visit(env, s, MatchAsN(Some(x), line, endLine), true).0;
      t.accessed == s.accessed && Top(t) == Top(s) - {x}
  {
    var t := Visit(env, s, MatchAsN(Some(x), line, endLine), true).0;
    assert t == OverwriteName(s, x);
  }

  /** `case _:` pops the name `None`, which no scope binds, so nothing changes. */
  lemma WildcardChangesNothing(env: Env, s: State, line: int, endLine: int)
    requires Wildcard !in Top(s)
    ensures Visit(env, s, MatchAsN(None, line, endLine), true).0 == s
  {
    assert Top(s) - {Wildcard} == Top(s);
    assert s.scopes[..|s.scopes| - 1] + [Top(s)] == s.scopes;
  }

  /** The visit of a class pattern, unfolded. */
  lemma VisitMatchClassUnfold(env: Env, s: State, n: Node)
    requires n.MatchClassN? && WellFormed(n)
    ensures var (s1, cls) := Visit(env, s, n.cls, true);
      var (s2, accesses) := VisitPatterns(env, s1, n.patterns);
      var clsChain := if cls.Pending? then cls.chain else [];
      var (s3, assigns) := VisitKwdPatterns(env, s2, clsChain, n.kwdAttrs, n.kwdPatterns, n.line, n.endLine);
      var s4 := ResolveAllPending(s3, accesses);
      Visit(env, s, n, true).0 == ResolveAllAssignments(s4.(noSplit := true), assigns).(noSplit := s4.noSplit)
  {
    assert Visit(env, s, n, true).0 == VisitMatchClass(env, s, n);
  }

  /** A single positional capture contributes its chain and changes nothing while the patterns are visited. */
  lemma PatternsOne(env: Env, s: State, p: Node)
    requires p.MatchAsN?
    ensures VisitPatterns(env, s, [p]) == (s, [PatternResult(p)])
  {
    assert [p][1..] == [] && [p][0] == p;
    assert forall i :: 0 <= i < |[p]| ==> [p][i].MatchAsN?;
    assert Captures([p]) == [PatternResult(p)] by {
      assert Captures([]) == [];
      assert [PatternResult(p)] + [] == [PatternResult(p)];
    }
  }

  /** A single keyword capture or wildcard changes nothing while the patterns are visited and contributes one assignment. */
  lemma KwdPatternsOne(env: Env, s: State, cls: seq<Component>, attr: string, p: Node, line: int, endLine: int)
    requires p.MatchAsN?
    ensures VisitKwdPatterns(env, s, cls, [attr], [p], line, endLine)
      == (s, [Assignment([[KwdTarget(p)]], Pending(KwdValue(cls, attr, line, endLine)))])
  {
    var r := VisitKwdPatterns(env, s, cls, [attr], [p], line, endLine);
    KwdPatternsAssign(env, s, cls, [attr], [p], line, endLine);
    assert [p][0] == p && [attr][0] == attr;
    assert forall i :: 0 <= i < |[p]| ==> [p][i].MatchAsN?;
    assert r.0 == s && |r.1| == 1;
    assert r.1[0] == Assignment([[KwdTarget(p)]], Pending(KwdValue(cls, attr, line, endLine)));
    assert r.1 == [Assignment([[KwdTarget(p)]], Pending(KwdValue(cls, attr, line, endLine)))];
  }

  /** Resolving a single stored capture forgets its name. */
  lemma ResolveOneCapture(s: State, xc: Chain)
    requires |xc| == 1 && xc[0].context == Store && !s.inAugassign
    ensures ResolveAllPending(s, [Pending(xc)]) == OverwriteName(s, xc[0].name)
  {
    assert [Pending(xc)][1..] == [];
  }

  /** Resolving a single keyword assignment. */
  lemma ResolveOneKeyword(s: State, asg: Tracker.Result)
    requires asg.Assignment?
    ensures ResolveAllAssignments(s, [asg]) == ResolveAssignment(s, asg.targets, asg.value).0
  {
    assert [asg][1..] == [];
  }

  /** `case C(x):` records the use of `C` and forgets the positional capture `x`. */
  lemma PositionalCaptureForgets(env: Env, s: State, c: string, x: string, line: int, endLine: int, pLine: int, pEndLine: int)
    requires !s.inAugassign
    ensures var n := CaptureClassPattern(c, x, line, endLine, pLine, pEndLine);
      var t := Visit(env, s, n, true).0;
      && t.accessed == s.accessed
         + (if c in Top(s) then SavedAccesses(s, Access(NoneContext, Top(s)[c], [Component(c, line, endLine, Load)], [])) else [])
      && Top(t) == Top(s) - {x}
  {
    var capture := MatchAsN(Some(x), pLine, pEndLine);
    var n := CaptureClassPattern(c, x, line, endLine, pLine, pEndLine);
    VisitMatchClassUnfold(env, s, n);
    LoadRecordsBoundName(env, s, c, line, endLine);
    var s1 := Visit(env, s, n.cls, true).0;
    PatternsOne(env, s1, capture);
    var xc: Chain := [Component(x, pLine, pEndLine, Store)];
    ResolveOneCapture(s1, xc);
    var s4 := OverwriteName(s1, x);
    assert ResolveAllAssignments(s4.(noSplit := true), []).(noSplit := s4.noSplit) == s4;
  }

  /** The keyword pattern `attr=p` of `case a.C(...)`: the class chain is dispatched at the top, then `p` receives its assignment without splitting. */
  lemma KeywordPatternSteps(env: Env, s: State, a: string, c: string, attr: string, p: Node, line: int, endLine: int)
    requires p.MatchAsN?
    ensures var cls: Chain := [Component(a, line, endLine, Load), Component(c, line, endLine, Load)];
      var n := KeywordClassPattern(a, c, attr, p, line, endLine);
      var s1 := if a in Top(s) then SaveAccess(s, Access(NoneContext, Top(s)[a], cls, [])) else s;
      Visit(env, s, n, true).0
        == ResolveAssignment(s1.(noSplit := true), [[KwdTarget(p)]], Pending(KwdValue(cls, attr, line, endLine))).0.(noSplit := s.noSplit)
  {
    var cls: Chain := [Component(a, line, endLine, Load), Component(c, line, endLine, Load)];
    var n := KeywordClassPattern(a, c, attr, p, line, endLine);
    VisitMatchClassUnfold(env, s, n);
    LoadAttributeRecords(env, s, a, c, line, endLine);
    var s1 := Visit(env, s, n.cls, true).0;
    KwdPatternsOne(env, s1, cls, attr, p, line, endLine);
    ResolveOneKeyword(s1.(noSplit := true), Assignment([[KwdTarget(p)]], Pending(KwdValue(cls, attr, line, endLine))));
  }

  /** Assigning a bound chain to a single name without splitting: the chain is recorded whole, the name is bound to its full components and its use is recorded. */
  lemma ResolveKeywordCapture(u: State, kv: Chain, xc: Chain)
    requires u.noSplit && |xc| == 1 && kv[0].context == Load && kv[0].name in Top(u)
    ensures var v := Access(NoneContext, Top(u)[kv[0].name], kv, []);
      var t := ResolveAssignment(u, [[Some(xc)]], Pending(kv)).0;
      && Top(t) == Top(u)[xc[0].name := FullComponents(v)]
      && t.accessed == u.accessed + [v, Access(NoneContext, FullComponents(v), xc, [])]
  {
    var v := Access(NoneContext, Top(u)[kv[0].name], kv, []);
    DispatchAssignment(u, [[Some(xc)]], Pending(kv));
    ResolveBoundLoad(u, kv);
    ResolveOneName(SaveAccess(u, v), xc, v);
  }

  /** Assigning a bound chain to no target without splitting records the chain whole and binds nothing. */
  lemma ResolveKeywordNothing(u: State, kv: Chain)
    requires u.noSplit && kv[0].context == Load && kv[0].name in Top(u)
    ensures var v := Access(NoneContext, Top(u)[kv[0].name], kv, []);
      ResolveAssignment(u, [[None]], Pending(kv)).0 == SaveAccess(u, v)
  {
    var v := Access(NoneContext, Top(u)[kv[0].name], kv, []);
    var none: Option<Chain> := None;
    DispatchAssignment(u, [[none]], Pending(kv));
    ResolveBoundLoad(u, kv);
    var w := SaveAccess(u, v);
    assert ResolveTargets(w, [[none]], Some(v)) == w by {
      assert [[none]][1..] == [];
      assert [none][1..] == [];
      assert ResolveElements(w, [none], Some(v)) == w;
    }
  }

  /**
   * `case a.C(attr=x):` with `a` bound records `a.C`, then, without
   * splitting, the whole chain `a.C.().attr`, binds `x` to its full
   * components and records the use of `x`.
   */
  lemma KeywordCaptureBinds(env: Env, s: State, a: string, c: string, attr: string, x: string, line: int, endLine: int, pLine: int, pEndLine: int)
    requires a in Top(s)
    ensures var cls: Chain := [Component(a, line, endLine, Load), Component(c, line, endLine, Load)];
      var n := KeywordClassPattern(a, c, attr, MatchAsN(Some(x), pLine, pEndLine), line, endLine);
      var t := Visit(env, s, n, true).0;
      var v := Access(NoneContext, Top(s)[a], KwdValue(cls, attr, line, endLine), []);
      && Top(t) == Top(s)[x := FullComponents(v)]
      && t.accessed == s.accessed + SavedAccesses(s, Access(NoneContext, Top(s)[a], cls, []))
         + [v, Access(NoneContext, FullComponents(v), [Component(x, pLine, pEndLine, Store)], [])]
      && t.noSplit == s.noSplit
  {
    var cls: Chain := [Component(a, line, endLine, Load), Component(c, line, endLine, Load)];
    var p := MatchAsN(Some(x), pLine, pEndLine);
    KeywordPatternSteps(env, s, a, c, attr, p, line, endLine);
    KeywordCaptureState(s, cls, KwdValue(cls, attr, line, endLine), [Component(x, pLine, pEndLine, Store)]);
  }

  /** The state `case a.C(attr=x):` leaves, from the state before it. */
  lemma KeywordCaptureState(s: State, cls: Chain, kv: Chain, xc: Chain)
    requires |xc| == 1 && cls[0].name in Top(s) && kv[0] == cls[0] && cls[0].context == Load
    ensures var u := SaveAccess(s, Access(NoneContext, Top(s)[cls[0].name], cls, [])).(noSplit := true);
      var t := ResolveAssignment(u, [[Some(xc)]], Pending(kv)).0.(noSplit := s.noSplit);
      var v := Access(NoneContext, Top(s)[cls[0].name], kv, []);
      && Top(t) == Top(s)[xc[0].name := FullComponents(v)]
      && t.accessed == s.accessed + SavedAccesses(s, Access(NoneContext, Top(s)[cls[0].name], cls, []))
         + [v, Access(NoneContext, FullComponents(v), xc, [])]
      && t.noSplit == s.noSplit
  {
    var u := SaveAccess(s, Access(NoneContext, Top(s)[cls[0].name], cls, [])).(noSplit := true);
    ResolveKeywordCapture(u, kv, xc);
  }

  /** The corrected keyword wildcard: `case a.C(attr=_):` with `a` bound records `a.C` and `a.C.().attr` and binds nothing. */
  lemma KeywordWildcardBindsNothing(env: Env, s: State, a: string, c: string, attr: string, line: int, endLine: int, pLine: int, pEndLine: int)
    requires a in Top(s)
    ensures var cls: Chain := [Component(a, line, endLine, Load), Component(c, line, endLine, Load)];
      var n := KeywordClassPattern(a, c, attr, MatchAsN(None, pLine, pEndLine), line, endLine);
      var t := Visit(env, s, n, true).0;
      && Top(t) == Top(s)
      && t.accessed == s.accessed + SavedAccesses(s, Access(NoneContext, Top(s)[a], cls, []))
         + [Access(NoneContext, Top(s)[a], KwdValue(cls, attr, line, endLine), [])]
  {
    var cls: Chain := [Component(a, line, endLine, Load), Component(c, line, endLine, Load)];
    var p := MatchAsN(None, pLine, pEndLine);
    KeywordPatternSteps(env, s, a, c, attr, p, line, endLine);
    KeywordWildcardState(s, cls, KwdValue(cls, attr, line, endLine));
  }

  /** The state the corrected `case a.C(attr=_):` leaves, from the state before it. */
  lemma KeywordWildcardState(s: State, cls: Chain, kv: Chain)
    requires cls[0].name in Top(s) && kv[0] == cls[0] && cls[0].context == Load
    ensures var u := SaveAccess(s, Access(NoneContext, Top(s)[cls[0].name], cls, [])).(noSplit := true);
      var t := ResolveAssignment(u, [[None]], Pending(kv)).0.(noSplit := s.noSplit);
      && Top(t) == Top(s)
      && t.accessed == s.accessed + SavedAccesses(s, Access(NoneContext, Top(s)[cls[0].name], cls, []))
         + [Access(NoneContext, Top(s)[cls[0].name], kv, [])]
  {
    var u := SaveAccess(s, Access(NoneContext, Top(s)[cls[0].name], cls, [])).(noSplit := true);
    ResolveKeywordNothing(u, kv);
  }

  /**
   * `visit_MatchClass` as written: a keyword pattern `_` becomes the target
   * `AssignTarget([PendingAccess([Component(None, ...)])])`. When the class
   * is bound, the target is assigned under the name `None` and its use is
   * recorded as an access whose only component is named `None`, whose code
   * string `to_name` cannot join.
   */
  lemma KeywordWildcardAsWritten(s: State, c: Chain, line: int, endLine: int)
    requires c[0].context == Load && c[0].name in Top(s)
    ensures var target := AsTarget(PatternResult(MatchAsN(None, line, endLine)));
      var t := ResolveAssignment(s.(noSplit := true), [[target]], Pending(c)).0;
      var v := Access(NoneContext, Top(s)[c[0].name], c, []);
      && Wildcard in Top(t)
      && t.accessed == s.accessed + [v, Access(NoneContext, FullComponents(v), [Component(Wildcard, line, endLine, Store)], [])]
  {
    var wc: Chain := [Component(Wildcard, line, endLine, Store)];
    assert AsTarget(PatternResult(MatchAsN(None, line, endLine))) == Some(wc);
    ResolveKeywordCapture(s.(noSplit := true), c, wc);
  }

  // ---------------------------------------------------------------------
  // An annotated assignment whose value is a walrus

  /**
   * `visit_AnnAssign` as written: the value is handed to
   * `resolve_pending_access`, which reads its components; a walrus value is
   * an assignment and has none, so the visit raises (`None` here).
   */
  function AnnotatedValueAsWritten(s: State, v: Tracker.Result): (t: Option<State>)
    ensures v.Assignment? || v.Targets? ==> t.None?
    ensures v.Pending? ==> t == Some(ResolvePending(s, v.chain).0)
    ensures v.NoResult? ==> t == Some(s)
  {
    match v
    case Pending(c) => Some(ResolvePending(s, c).0)
    case NoResult => Some(s)
    case _ => None
  }

  /** `x: a = (y := b)`: the annotation is a chain and the value an assignment, so the source as written raises. */
  lemma AnnotatedWalrusRaises(env: Env, s: State, y: string, ann: string, line: int, endLine: int, value: Node)
    requires WellFormed(value)
    ensures var walrus := NamedExprN(NameN(y, line, endLine, Store), value);
      var (s1, v) := Visit(env, s, walrus, false);
      var (s2, annot) := Visit(env, s1, NameN(ann, line, endLine, Load), false);
      && v.Assignment? && annot.Pending?
      && AnnotatedValueAsWritten(s2, v).None?
  {
    var walrus := NamedExprN(NameN(y, line, endLine, Store), value);
    VisitKindCompound(env, s, walrus, false);
    var s1 := Visit(env, s, walrus, false).0;
    VisitName(env, s1, ann, line, endLine, Load, false);
  }

  /**
   * With the value dispatched like any other, `x: a = (y := b)` binds `y` to
   * the chain of `b` when the base of `b` is bound.
   */
  lemma AnnotatedWalrusBinds(s: State, yc: Chain, c: Chain)
    requires |yc| == 1 && c[0].context == Load && c[0].name in Top(s)
    ensures var a := Access(NoneContext, Top(s)[c[0].name], c, []);
      var t := AnnotatedValue(s, Assignment([[Some(yc)]], Pending(c)));
      && yc[0].name in Top(t) && Top(t)[yc[0].name] == FullComponents(a)
      && t.accessed == s.accessed + SavedAccesses(s, a)
        + SavedAccesses(SaveAccess(s, a), Access(NoneContext, FullComponents(a), yc, []))
  {
    var a := Access(NoneContext, Top(s)[c[0].name], c, []);
    DispatchAssignment(s, [[Some(yc)]], Pending(c));
    ResolveBoundLoad(s, c);
    ResolveOneName(SaveAccess(s, a), yc, a);
  }

  // ---------------------------------------------------------------------
  // Lists, calls and parameters

  /** `[x, y] = a.b`, all on one line. */
  function ListAssign(x: string, y: string, a: string, b: string, line: int, endLine: int): (n: Node)
    ensures n == AssignN([OtherN([NameN(x, line, endLine, Store), NameN(y, line, endLine, Store)])], DottedLoad(a, b, line, endLine))
    ensures WellFormed(n)
  {
    var list := OtherN([NameN(x, line, endLine, Store), NameN(y, line, endLine, Store)]);
    assert WellFormed(list) && KindOf(list) == KNone;
    AssignN([list], DottedLoad(a, b, line, endLine))
  }

  /** `a.b(args)`, all on one line. */
  function DottedCall(a: string, b: string, args: seq<Node>, line: int, endLine: int): (n: Node)
    requires AllWellFormed(args)
    ensures n == CallN(DottedLoad(a, b, line, endLine), args, line, endLine)
    ensures WellFormed(n)
  {
    CallN(DottedLoad(a, b, line, endLine), args, line, endLine)
  }

  /** `def f(x: a): x.b`, all on one line. */
  function AnnotatedDef(f: string, x: string, a: string, b: string, line: int, endLine: int): (n: Node)
    ensures n == FunctionDefN(f, [], [], [Param(x, Some(NameN(a, line, endLine, Load)), line, endLine)], None, [DottedLoad(x, b, line, endLine)])
    ensures WellFormed(n)
  {
    var p := Param(x, Some(NameN(a, line, endLine, Load)), line, endLine);
    assert ParamWellFormed(p);
    var body := [DottedLoad(x, b, line, endLine)];
    assert AllWellFormed(body);
    FunctionDefN(f, [], [], [p], None, body)
  }

  /** Below the top, `a.b` changes nothing and returns its chain. */
  lemma DottedLoadBelowTop(env: Env, s: State, a: string, b: string, line: int, endLine: int)
    ensures Visit(env, s, DottedLoad(a, b, line, endLine), false)
      == (s, Pending([Component(a, line, endLine, Load), Component(b, line, endLine, Load)]))
  {
    var n := DottedLoad(a, b, line, endLine);
    assert Visit(env, s, n, false) == VisitAttribute(env, s, n, false);
    VisitName(env, s, a, line, endLine, Load, false);
    assert [Component(a, line, endLine, Load)] + [Component(b, line, endLine, Load)]
      == [Component(a, line, endLine, Load), Component(b, line, endLine, Load)];
  }

  /** A loaded chain assigned to no target is recorded when its base is bound, and nothing else happens. */
  lemma NoTargetRecordsValue(s: State, c: Chain)
    requires c[0].context == Load
    ensures ResolveAssignment(s, [[None]], Pending(c)).0
      == if c[0].name in Top(s) then SaveAccess(s, Access(NoneContext, Top(s)[c[0].name], c, [])) else s
  {
    var none: Option<Chain> := None;
    DispatchAssignment(s, [[none]], Pending(c));
    var (w, v) := Dispatch(s, Pending(c));
    assert ResolveTargets(w, [[none]], v) == w by {
      assert [[none]][1..] == [];
      assert [none][1..] == [];
      assert ResolveElements(w, [none], v) == w;
    }
  }

  /**
   * `[x, y] = a.b`: a list is visited generically, so `x` and `y` are
   * forgotten one by one before the value is resolved, and the assignment
   * has no target; `a.b` is recorded only when `a` is bound and is neither
   * `x` nor `y`.
   */
  lemma ListTargetForgets(env: Env, s: State, x: string, y: string, a: string, b: string, line: int, endLine: int)
    requires !s.inAugassign
    ensures var t := Visit(env, s, ListAssign(x, y, a, b, line, endLine), true).0;
      var c: Chain := [Component(a, line, endLine, Load), Component(b, line, endLine, Load)];
      && Top(t) == Top(s) - {x, y}
      && t.accessed == s.accessed
         + (if a in Top(s) && a != x && a != y then SavedAccesses(s, Access(NoneContext, Top(s)[a], c, [])) else [])
  {
    var c: Chain := [Component(a, line, endLine, Load), Component(b, line, endLine, Load)];
    var s2 := VisitAll(env, s, [NameN(x, line, endLine, Store), NameN(y, line, endLine, Store)]);
    ListAssignUnfold(env, s, x, y, a, b, line, endLine);
    StorePairForgets(env, s, x, y, line, endLine);
    NoTargetRecordsValue(s2, c);
  }

  /** Two stored names visited at the top are forgotten, and nothing is recorded. */
  lemma StorePairForgets(env: Env, s: State, x: string, y: string, line: int, endLine: int)
    requires !s.inAugassign
    ensures var t := VisitAll(env, s, [NameN(x, line, endLine, Store), NameN(y, line, endLine, Store)]);
      && t.accessed == s.accessed
      && Top(t) == Top(s) - {x, y}
  {
    var xn := NameN(x, line, endLine, Store);
    var yn := NameN(y, line, endLine, Store);
    StoreForgets(env, s, x, line, endLine);
    var s1 := Visit(env, s, xn, true).0;
    StoreForgets(env, s1, y, line, endLine);
    var s2 := Visit(env, s1, yn, true).0;
    assert [xn, yn][1..] == [yn];
    assert [yn][1..] == [];
    assert VisitAll(env, s2, []) == s2;
    assert VisitAll(env, s1, [yn]) == s2;
    assert Top(s2) == Top(s) - {x, y};
  }

  /** `[x, y] = a.b` visits `a.b` below the top, then the list's names at the top, then resolves `a.b` with no target. */
  lemma ListAssignUnfold(env: Env, s: State, x: string, y: string, a: string, b: string, line: int, endLine: int)
    ensures var names := [NameN(x, line, endLine, Store), NameN(y, line, endLine, Store)];
      var c: Chain := [Component(a, line, endLine, Load), Component(b, line, endLine, Load)];
      Visit(env, s, ListAssign(x, y, a, b, line, endLine), true).0 == ResolveAssignment(VisitAll(env, s, names), [[None]], Pending(c)).0
  {
    var names := [NameN(x, line, endLine, Store), NameN(y, line, endLine, Store)];
    var c: Chain := [Component(a, line, endLine, Load), Component(b, line, endLine, Load)];
    var n := ListAssign(x, y, a, b, line, endLine);
    var s2 := VisitAll(env, s, names);
    DottedLoadBelowTop(env, s, a, b, line, endLine);
    OtherTarget(env, s, names);
    assert VisitTargetsReversed(env, s, n.targets) == (s2, [[None]]);
    assert Visit(env, s, n, true) == VisitAssign(env, s, n);
    assert VisitAssign(env, s, n).0 == Dispatch(s2, Assignment([[None]], Pending(c))).0;
  }

  /** A target that is neither a name, an attribute, a subscript nor a tuple visits its children at the top and contributes no element. */
  lemma OtherTarget(env: Env, s: State, children: seq<Node>)
    requires AllWellFormed(children)
    ensures VisitTargetsReversed(env, s, [OtherN(children)]) == (VisitAll(env, s, children), [[None]])
  {
    var n := OtherN(children);
    VisitOneTarget(env, s, n);
    assert Visit(env, s, n, false) == (VisitAll(env, s, children), NoResult);
  }

  /**
   * `a.b(args)` at the top: the arguments are visited first, each at the
   * top; then the chain `a.b` extended by the call is recorded from the
   * binding `a` has after them, and returned.
   */
  lemma CallRecordsChain(env: Env, s: State, a: string, b: string, args: seq<Node>, line: int, endLine: int)
    requires AllWellFormed(args)
    ensures var (t, r) := Visit(env, s, DottedCall(a, b, args, line, endLine), true);
      var s2 := VisitAll(env, s, args);
      var c: Chain := [Component(a, line, endLine, Load), Component(b, line, endLine, Load), Component(CallMarker, line, endLine, Load)];
      && r == Pending(c)
      && t == if a in Top(s2) then SaveAccess(s2, Access(NoneContext, Top(s2)[a], c, [])) else s2
  {
    var n := DottedCall(a, b, args, line, endLine);
    assert Visit(env, s, n, true) == VisitCall(env, s, n, true);
    DottedLoadBelowTop(env, s, a, b, line, endLine);
    assert [Component(a, line, endLine, Load), Component(b, line, endLine, Load)] + [Component(CallMarker, line, endLine, Load)]
      == [Component(a, line, endLine, Load), Component(b, line, endLine, Load), Component(CallMarker, line, endLine, Load)];
  }

  /** A parameter without an annotation is assigned nothing: its name is forgotten. */
  lemma PlainParamForgets(env: Env, s: State, x: string, line: int, endLine: int)
    ensures var t := VisitParam(env, s, Param(x, None, line, endLine));
      && t.accessed == s.accessed
      && Top(t) == Top(s) - {x}
  {
    var xc: Chain := [Component(x, line, endLine, Load)];
    assert VisitParam(env, s, Param(x, None, line, endLine)) == Dispatch(s, Assignment([[Some(xc)]], NoResult)).0;
    DispatchAssignment(s, [[Some(xc)]], NoResult);
    NoValueForgets(s, xc);
  }

  /** A single name assigned no value is forgotten. */
  lemma NoValueForgets(s: State, c: Chain)
    requires |c| == 1
    ensures var t := ResolveTargets(s, [[Some(c)]], None);
      && t.accessed == s.accessed
      && Top(t) == Top(s) - {c[0].name}
  {
    var t := OverwriteName(s, c[0].name);
    assert ResolveTargets(s, [[Some(c)]], None) == t by {
      assert [[Some(c)]][1..] == [];
      assert [Some(c)][1..] == [];
      assert ResolveElements(t, [], None) == t;
    }
    assert Top(t) == Top(s) - {c[0].name};
  }

  /**
   * `x: a` as a parameter with `a` bound: the annotation's chain, called, is
   * recorded and assigned to `x`, which is bound to its full components
   * (the chain of `a` followed by the call) and whose use is recorded.
   */
  lemma AnnotatedParamBinds(env: Env, s: State, x: string, a: string, line: int, endLine: int, aLine: int, aEndLine: int)
    requires a in Top(s)
    ensures var p := Param(x, Some(NameN(a, aLine, aEndLine, Load)), line, endLine);
      var v := Access(NoneContext, Top(s)[a], [Component(a, aLine, aEndLine, Load), Component(CallMarker, line, endLine, Load)], []);
      var t := VisitParam(env, s, p);
      && (Top(s)[a] != [] ==> FullComponents(v) == Top(s)[a] + [Component(CallMarker, line, endLine, Load)])
      && Top(t) == Top(s)[x := FullComponents(v)]
      && t.accessed == s.accessed + SavedAccesses(s, v)
         + SavedAccesses(s, Access(NoneContext, FullComponents(v), [Component(x, line, endLine, Load)], []))
  {
    var ac: Chain := [Component(a, aLine, aEndLine, Load), Component(CallMarker, line, endLine, Load)];
    var xc: Chain := [Component(x, line, endLine, Load)];
    var v := Access(NoneContext, Top(s)[a], ac, []);
    VisitName(env, s, a, aLine, aEndLine, Load, false);
    assert [Component(a, aLine, aEndLine, Load)] + [Component(CallMarker, line, endLine, Load)] == ac;
    DispatchAssignment(s, [[Some(xc)]], Pending(ac));
    ResolveBoundLoad(s, ac);
    ResolveOneName(SaveAccess(s, v), xc, v);
  }
}
