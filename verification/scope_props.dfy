/**
 * Which bindings a function, lambda, class or comprehension can see, and
 * which of its own bindings stay inside it.
 */
module ScopeProps {
  import opened Wrappers
  import opened Parse
  import opened Tracker
  import TrackerProps

  /** A plain `def`: what the body and the parameters bind never reaches the enclosing scopes; only the function's own name is forgotten. */
  lemma FunctionBodyContained(env: Env, s: State, n: Node)
    requires n.FunctionDefN? && WellFormed(n)
    requires n.decorators == [] && n.defaults == [] && n.returnAnnotation.None?
    ensures Visit(env, s, n, true).0.scopes == OverwriteName(s, n.fname).scopes
  {
    PlainFunctionDef(env, s, n);
  }

  /**
   * A method sees the module scope and not the class body: two visits of
   * the same `def` inside a class, from states that agree on the module
   * scope, the outer scopes and the warnings, record the same accesses.
   */
  lemma MethodsSeeModuleScope(env: Env, s: State, s': State, n: Node)
    requires n.FunctionDefN? && WellFormed(n)
    requires n.decorators == [] && n.defaults == [] && n.returnAnnotation.None?
    requires |s.scopes| >= 2 && |s'.scopes| >= 2
    requires s.scopes[0] == s'.scopes[0] && s.outer == s'.outer && s.warnings == s'.warnings
    ensures var t := Visit(env, s, n, true).0;
      var t' := Visit(env, s', n, true).0;
      && t.accessed[|s.accessed|..] == t'.accessed[|s'.accessed|..]
      && t.warnings == t'.warnings
  {
    PlainFunctionDef(env, s, n);
    PlainFunctionDef(env, s', n);
    var s1 := OverwriteName(s, n.fname);
    var s1' := OverwriteName(s', n.fname);
    assert s1.scopes[0] == s1.scopes[..|s1.scopes| - 1][0] == s.scopes[..|s.scopes| - 1][0] == s.scopes[0];
    assert s1'.scopes[0] == s1'.scopes[..|s1'.scopes| - 1][0] == s'.scopes[..|s'.scopes| - 1][0] == s'.scopes[0];
    var t := Visit(env, s, n, true).0;
    var inner := FunctionInner(env, s1, n);
    assert t.accessed == s.accessed + inner.accessed;
    assert t.accessed[|s.accessed|..] == inner.accessed;
  }

  /** The new visitor's state after the parameters and the body of a plain `def` whose name is already forgotten in `s1`. */
  function FunctionInner(env: Env, s1: State, n: Node): State
    requires n.FunctionDefN? && WellFormed(n)
  {
    var inner := Initial(env, s1.warnings).(scopes := [s1.scopes[0]], outer := s1.outer + [s1.scopes[0]]);
    var inner1 := VisitParams(env, inner, n.params);
    VisitAll(env, inner1.(outer := s1.outer + [s1.scopes[0]], warnings := inner1.warnings), n.body)
  }

  /** A plain `def` forgets its name, then adds what the new visitor records. */
  lemma PlainFunctionDef(env: Env, s: State, n: Node)
    requires n.FunctionDefN? && WellFormed(n)
    requires n.decorators == [] && n.defaults == [] && n.returnAnnotation.None?
    ensures var s1 := OverwriteName(s, n.fname);
      var inner := FunctionInner(env, s1, n);
      Visit(env, s, n, true).0 == s1.(accessed := s1.accessed + inner.accessed, warnings := inner.warnings)
  {
    assert Visit(env, s, n, true).0 == VisitFunctionDef(env, s, n);
    var s0 := OverwriteName(s, n.fname);
    assert VisitAll(env, s0, []) == s0;
  }

  /**
   * `def f(x: a): x.b` with `a` bound in the module scope: the new visitor
   * records, each split at its calls, the chain of `a` called, the use of
   * the parameter `x`, and `x.b` from the binding of `x`, which is the
   * chain of `a` followed by the call; only `f` is forgotten outside.
   */
  lemma AnnotatedParamUsed(env: Env, s: State, f: string, x: string, a: string, b: string, line: int, endLine: int)
    requires a != f && a in s.scopes[0]
    ensures var call := Component(CallMarker, line, endLine, Load);
      var v := Access(NoneContext, s.scopes[0][a], [Component(a, line, endLine, Load), call], []);
      var u := Access(NoneContext, FullComponents(v), [Component(x, line, endLine, Load), Component(b, line, endLine, Load)], []);
      var t := Visit(env, s, TrackerProps.AnnotatedDef(f, x, a, b, line, endLine), true).0;
      && t.scopes == OverwriteName(s, f).scopes
      && t.accessed == s.accessed + (SplitAccesses(v)
         + SplitAccesses(Access(NoneContext, FullComponents(v), [Component(x, line, endLine, Load)], []))
         + SplitAccesses(u))
      && (s.scopes[0][a] != [] ==> FullComponents(u) == s.scopes[0][a] + [call, Component(b, line, endLine, Load)])
  {
    var n := TrackerProps.AnnotatedDef(f, x, a, b, line, endLine);
    PlainDefOneParam(env, s, n);
    AnnotatedDefInner(env, s, f, x, a, b, line, endLine);
    if s.scopes[0][a] != [] {
      ThroughCall(s.scopes[0][a], Component(a, line, endLine, Load), Component(CallMarker, line, endLine, Load),
        Component(x, line, endLine, Load), Component(b, line, endLine, Load));
    }
  }

  /** A name bound to a chain called, then followed by an attribute, reaches the attribute through the call. */
  lemma ThroughCall(prior: seq<Component>, base: Component, call: Component, name: Component, attr: Component)
    requires prior != []
    ensures var v := Access(NoneContext, prior, [base, call], []);
      var u := Access(NoneContext, FullComponents(v), [name, attr], []);
      FullComponents(u) == prior + [call, attr]
  {
    var v := Access(NoneContext, prior, [base, call], []);
    assert FullComponents(v) == prior + [call];
    var u := Access(NoneContext, FullComponents(v), [name, attr], []);
    assert FullComponents(u) == prior + [call] + [attr];
  }

  /** What the new visitor of `def f(x: a): x.b` records when `a` is bound in the module scope. */
  lemma AnnotatedDefInner(env: Env, s: State, f: string, x: string, a: string, b: string, line: int, endLine: int)
    requires a != f && a in s.scopes[0]
    ensures var call := Component(CallMarker, line, endLine, Load);
      var v := Access(NoneContext, s.scopes[0][a], [Component(a, line, endLine, Load), call], []);
      var u := Access(NoneContext, FullComponents(v), [Component(x, line, endLine, Load), Component(b, line, endLine, Load)], []);
      var s1 := OverwriteName(s, f);
      var i0 := Initial(env, s1.warnings).(scopes := [s1.scopes[0]], outer := s1.outer + [s1.scopes[0]]);
      var i1 := VisitParam(env, i0, Param(x, Some(NameN(a, line, endLine, Load)), line, endLine));
      Visit(env, i1, TrackerProps.DottedLoad(x, b, line, endLine), true).0.accessed
        == SplitAccesses(v)
           + SplitAccesses(Access(NoneContext, FullComponents(v), [Component(x, line, endLine, Load)], []))
           + SplitAccesses(u)
  {
    var s1 := OverwriteName(s, f);
    var i0 := Initial(env, s1.warnings).(scopes := [s1.scopes[0]], outer := s1.outer + [s1.scopes[0]]);
    ForgetKeepsModuleBinding(s, f, a);
    assert Top(i0) == s1.scopes[0];
    ParamThenUse(env, i0, x, a, b, line, endLine);
  }

  /** A plain `def` with one parameter and one statement: only its name is forgotten outside, and it adds what its new visitor records. */
  lemma PlainDefOneParam(env: Env, s: State, n: Node)
    requires n.FunctionDefN? && WellFormed(n) && |n.params| == 1 && |n.body| == 1
    requires ParamWellFormed(n.params[0]) && WellFormed(n.body[0])
    requires n.decorators == [] && n.defaults == [] && n.returnAnnotation.None?
    ensures var s1 := OverwriteName(s, n.fname);
      var i0 := Initial(env, s1.warnings).(scopes := [s1.scopes[0]], outer := s1.outer + [s1.scopes[0]]);
      var t := Visit(env, s, n, true).0;
      && t.scopes == s1.scopes
      && t.accessed == s.accessed + Visit(env, VisitParam(env, i0, n.params[0]), n.body[0], true).0.accessed
  {
    PlainFunctionDef(env, s, n);
    InnerOfOneParam(env, OverwriteName(s, n.fname), n);
  }

  /** Forgetting `f` keeps the module scope's binding of any other name. */
  lemma ForgetKeepsModuleBinding(s: State, f: string, a: string)
    requires a != f && a in s.scopes[0]
    ensures var s1 := OverwriteName(s, f);
      a in s1.scopes[0] && s1.scopes[0][a] == s.scopes[0][a]
  {
    var s1 := OverwriteName(s, f);
    if |s.scopes| == 1 {
      assert s1.scopes[0] == Top(s1);
    } else {
      assert s1.scopes[0] == s1.scopes[..|s1.scopes| - 1][0] == s.scopes[..|s.scopes| - 1][0] == s.scopes[0];
    }
  }

  /** The new visitor of a plain `def` with one parameter and one statement. */
  lemma InnerOfOneParam(env: Env, s1: State, n: Node)
    requires n.FunctionDefN? && WellFormed(n) && |n.params| == 1 && |n.body| == 1
    requires ParamWellFormed(n.params[0]) && WellFormed(n.body[0])
    ensures var i0 := Initial(env, s1.warnings).(scopes := [s1.scopes[0]], outer := s1.outer + [s1.scopes[0]]);
      FunctionInner(env, s1, n) == Visit(env, VisitParam(env, i0, n.params[0]), n.body[0], true).0
  {
    var i0 := Initial(env, s1.warnings).(scopes := [s1.scopes[0]], outer := s1.outer + [s1.scopes[0]]);
    var p := n.params[0];
    assert n.params == [p];
    assert VisitParams(env, i0, [p]) == VisitParam(env, i0, p) by {
      assert [p][1..] == [];
      assert VisitParams(env, VisitParam(env, i0, p), []) == VisitParam(env, i0, p);
    }
    var i1 := VisitParam(env, i0, p);
    assert i1.(outer := s1.outer + [s1.scopes[0]], warnings := i1.warnings) == i1;
    var t := Visit(env, i1, n.body[0], true).0;
    assert n.body == [n.body[0]];
    assert VisitAll(env, i1, [n.body[0]]) == t by {
      assert [n.body[0]][1..] == [];
      assert VisitAll(env, t, []) == t;
    }
  }

  /** Parameter `x: a` with `a` bound, then the statement `x.b`. */
  lemma ParamThenUse(env: Env, i0: State, x: string, a: string, b: string, line: int, endLine: int)
    requires a in Top(i0)
    ensures var call := Component(CallMarker, line, endLine, Load);
      var v := Access(NoneContext, Top(i0)[a], [Component(a, line, endLine, Load), call], []);
      var u := Access(NoneContext, FullComponents(v), [Component(x, line, endLine, Load), Component(b, line, endLine, Load)], []);
      var i1 := VisitParam(env, i0, Param(x, Some(NameN(a, line, endLine, Load)), line, endLine));
      Visit(env, i1, TrackerProps.DottedLoad(x, b, line, endLine), true).0.accessed
        == i0.accessed + SavedAccesses(i0, v)
           + SavedAccesses(i0, Access(NoneContext, FullComponents(v), [Component(x, line, endLine, Load)], []))
           + SavedAccesses(i0, u)
  {
    TrackerProps.AnnotatedParamBinds(env, i0, x, a, line, endLine, line, endLine);
    var i1 := VisitParam(env, i0, Param(x, Some(NameN(a, line, endLine, Load)), line, endLine));
    TrackerProps.LoadAttributeRecords(env, i1, x, b, line, endLine);
  }

  /** A comprehension's targets never reach the enclosing scopes. */
  lemma CompKeepsScopes(env: Env, s: State, n: Node)
    requires n.CompN? && WellFormed(n)
    ensures Visit(env, s, n, true).0.scopes == s.scopes
  {
    CompUnfold(env, s, n);
  }

  /**
   * A comprehension sees a copy of the innermost scope: two visits from
   * states that agree on it and on the warnings record the same accesses.
   */
  lemma ComprehensionSeesInnermostScope(env: Env, s: State, s': State, n: Node)
    requires n.CompN? && WellFormed(n)
    requires Top(s) == Top(s') && s.warnings == s'.warnings
    ensures var t := Visit(env, s, n, true).0;
      var t' := Visit(env, s', n, true).0;
      && t.accessed[|s.accessed|..] == t'.accessed[|s'.accessed|..]
      && t.warnings == t'.warnings
  {
    CompUnfold(env, s, n);
    CompUnfold(env, s', n);
    var inner := CompInner(env, s.warnings, Top(s), n);
    assert Visit(env, s, n, true).0.accessed == s.accessed + inner.accessed;
  }

  /** The new visitor of a comprehension after its generators and values. */
  function CompInner(env: Env, warnings: seq<string>, innermost: Scope, n: Node): State
    requires n.CompN? && WellFormed(n)
  {
    VisitAll(env, VisitGenerators(env, Initial(env, warnings).(scopes := [innermost]), n.generators), n.values)
  }

  /** A comprehension adds what its new visitor records and keeps everything else. */
  lemma CompUnfold(env: Env, s: State, n: Node)
    requires n.CompN? && WellFormed(n)
    ensures var inner := CompInner(env, s.warnings, Top(s), n);
      Visit(env, s, n, true).0 == s.(accessed := s.accessed + inner.accessed, warnings := inner.warnings)
  {
    assert Visit(env, s, n, true).0 == VisitComp(env, s, n);
  }

  /** A lambda without defaults binds nothing in the enclosing scopes. */
  lemma LambdaKeepsScopes(env: Env, s: State, n: Node)
    requires n.LambdaN? && WellFormed(n) && n.lambdaDefaults == []
    ensures Visit(env, s, n, true).0.scopes == s.scopes
  {
    PlainLambda(env, s, n);
  }

  /**
   * A lambda body sees the module scope without the lambda's parameters:
   * two visits from states whose module scopes agree outside the parameter
   * names, and that agree on the warnings, record the same accesses.
   */
  lemma LambdaSeesModuleScopeWithoutParams(env: Env, s: State, s': State, n: Node)
    requires n.LambdaN? && WellFormed(n) && n.lambdaDefaults == []
    requires s.warnings == s'.warnings
    requires forall k :: k !in n.lambdaParams ==> (k in s.scopes[0] <==> k in s'.scopes[0])
    requires forall k :: k !in n.lambdaParams && k in s.scopes[0] ==> s.scopes[0][k] == s'.scopes[0][k]
    ensures var t := Visit(env, s, n, true).0;
      var t' := Visit(env, s', n, true).0;
      && t.accessed[|s.accessed|..] == t'.accessed[|s'.accessed|..]
      && t.warnings == t'.warnings
  {
    PlainLambda(env, s, n);
    PlainLambda(env, s', n);
    SameOutside(s.scopes[0], s'.scopes[0], n.lambdaParams);
    var inner := Visit(env, LambdaInner(env, s.warnings, s.scopes[0], n.lambdaParams), n.lambdaBody, true).0;
    assert Visit(env, s, n, true).0.accessed == s.accessed + inner.accessed;
  }

  /** The new visitor of a lambda: the module scope without the parameters. */
  function LambdaInner(env: Env, warnings: seq<string>, moduleScope: Scope, params: seq<string>): State
  {
    Initial(env, warnings).(scopes := [moduleScope - NameSet(params)])
  }

  /** A lambda without defaults adds what its new visitor records and keeps everything else. */
  lemma PlainLambda(env: Env, s: State, n: Node)
    requires n.LambdaN? && WellFormed(n) && n.lambdaDefaults == []
    ensures var inner := Visit(env, LambdaInner(env, s.warnings, s.scopes[0], n.lambdaParams), n.lambdaBody, true).0;
      Visit(env, s, n, true).0 == s.(accessed := s.accessed + inner.accessed, warnings := inner.warnings)
  {
    assert Visit(env, s, n, true).0 == VisitLambda(env, s, n);
    assert VisitAll(env, s, []) == s;
    OverwriteAllSingle(Initial(env, s.warnings).(scopes := [s.scopes[0]]), n.lambdaParams);
  }

  lemma SameOutside(sc: Scope, sc': Scope, names: seq<string>)
    requires forall k :: k !in names ==> (k in sc <==> k in sc')
    requires forall k :: k !in names && k in sc ==> sc[k] == sc'[k]
    ensures sc - NameSet(names) == sc' - NameSet(names)
  {
  }

  /** The names of a sequence, as a set. */
  function NameSet(names: seq<string>): (r: set<string>)
    ensures forall x :: x in r <==> x in names
  {
    set x | x in names
  }

  /** Forgetting names in a one-scope visitor removes exactly them. */
  lemma {:induction false} OverwriteAllSingle(x: State, names: seq<string>)
    requires |x.scopes| == 1
    ensures OverwriteAll(x, names) == x.(scopes := [Top(x) - NameSet(names)])
    decreases |names|
  {
    if |names| == 0 {
      assert Top(x) - NameSet(names) == Top(x);
      assert x.scopes == [Top(x)];
    } else {
      var y := OverwriteName(x, names[0]);
      assert y == x.(scopes := [Top(x) - {names[0]}]);
      OverwriteAllSingle(y, names[1..]);
      assert (Top(x) - {names[0]}) - NameSet(names[1..]) == Top(x) - NameSet(names);
    }
  }

  /** A plain class: what its body binds is popped with its scope; only the class name is forgotten. */
  lemma ClassBodyContained(env: Env, s: State, n: Node)
    requires n.ClassDefN? && WellFormed(n)
    requires n.classDecorators == [] && n.bases == [] && n.keywords == []
    ensures Visit(env, s, n, true).0.scopes == OverwriteName(s, n.cname).scopes
  {
    assert Visit(env, s, n, true).0 == VisitClassDef(env, s, n);
    assert VisitAll(env, s, []) == s;
    var s2 := OverwriteName(s, n.cname);
    var pushed := s2.(scopes := s2.scopes + [s2.scopes[0]]);
    var s3 := VisitAll(env, pushed, n.classBody);
    assert s3.scopes[..|s3.scopes| - 1] == pushed.scopes[..|pushed.scopes| - 1] == s2.scopes;
  }
}
