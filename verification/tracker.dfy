/**
 * What `ImportTrackerVisitor` (`sphinx_codeautolink/parse.py`) computes, as
 * functions on the visitor's state.
 *
 * The visitor walks a Python syntax tree, keeps a stack of name-to-chain
 * scopes (class bodies push a copy of the module scope), and records a `Name`
 * for every use of a chain whose base name is bound. The source's `_parents`
 * counter only decides whether the chain a node returns is dispatched by that
 * node; here that is the `top` flag: a tracked node (name, attribute, call,
 * walrus, match capture) dispatches its chain when it is visited at the top,
 * and every other node resets the counter, so its children are visited at the
 * top unless the node itself is one of the decorated ones (tuple, assignment,
 * annotated assignment, argument, class pattern), whose children are not.
 */
module Tracker {
  import opened Wrappers
  import opened Parse
  import Text

  /** A pending access chain: never empty, it starts at a name. */
  type Chain = c: seq<Component> | |c| >= 1 witness [Component("", 0, 0, Load)]

  type Scope = map<string, seq<Component>>

  /** The scope stack: the module (or function) scope first, class-body scopes after it. */
  type Stack = s: seq<Scope> | |s| >= 1 witness [map[]]

  // ---------------------------------------------------------------------
  // Syntax trees

  datatype Alias = Alias(name: string, asname: Option<string>)

  /** A function argument, visited by `visit_arg`. */
  datatype Param = Param(name: string, annotation: Option<Node>, line: int, endLine: int)

  /** One `for ... in ... if ...` clause of a comprehension. */
  datatype Generator = Generator(target: Node, iter: Node, ifs: seq<Node>)

  datatype Node =
    | NameN(id: string, line: int, endLine: int, ctx: Ctx)
    | AttributeN(value: Node, attr: string, line: int, endLine: int, ctx: Ctx)
      /** `args` holds positional arguments followed by keyword arguments. */
    | CallN(func: Node, args: seq<Node>, line: int, endLine: int)
      /** Tuples; a list is an `OtherN`, since the source has no list visitor and visits a list's elements generically, each at the top. */
    | TupleN(elts: seq<Node>, ctx: Ctx)
    | AssignN(targets: seq<Node>, value: Node)
    | AnnAssignN(target: Node, annotation: Node, annValue: Option<Node>, annLine: int, annEndLine: int)
    | AugAssignN(augTarget: Node, augValue: Node)
    | NamedExprN(walrusTarget: Node, walrusValue: Node)
    | ImportN(names: seq<Alias>, line: int, endLine: int)
    | ImportFromN(moduleName: string, names: seq<Alias>, level: nat, line: int, endLine: int)
    | GlobalN(globals: seq<string>, line: int)
    | NonlocalN(nonlocals: seq<string>, line: int)
      /** `params` in the order the source visits them: positional, keyword-only, positional-only, `*args`, `**kwargs`. */
    | FunctionDefN(fname: string, decorators: seq<Node>, defaults: seq<Node>, params: seq<Param>, returnAnnotation: Option<Node>, body: seq<Node>)
    | LambdaN(lambdaDefaults: seq<Node>, lambdaParams: seq<string>, lambdaBody: Node)
    | ClassDefN(cname: string, classDecorators: seq<Node>, bases: seq<Node>, keywords: seq<Node>, classBody: seq<Node>)
      /** List, set and dict comprehensions and generator expressions. */
    | CompN(values: seq<Node>, generators: seq<Generator>)
    | ForN(forTarget: Node, iter: Node, forBody: seq<Node>, orelse: seq<Node>)
    | MatchClassN(cls: Node, patterns: seq<Node>, kwdAttrs: seq<string>, kwdPatterns: seq<Node>, line: int, endLine: int)
      /** A capture pattern `case x` / `case ... as x`, or the wildcard `case _` when `captured` is `None`; its sub-pattern is not visited. */
    | MatchAsN(captured: Option<string>, line: int, endLine: int)
      /** Every other node, with its children in field order. */
    | OtherN(children: seq<Node>)

  /** The shape of what visiting a node returns. */
  datatype Kind = KNone | KPending | KTargets | KAssignment

  function KindOf(n: Node): Kind
  {
    match n
    case NameN(_, _, _, _) => KPending
    case AttributeN(v, _, _, _, _) => if KindOf(v) == KPending then KPending else KNone
    case CallN(f, _, _, _) => if KindOf(f) == KPending then KPending else KNone
    case TupleN(_, ctx) => if ctx == Store then KTargets else KNone
    case AssignN(_, _) => KAssignment
    case AnnAssignN(_, _, _, _, _) => KAssignment
    case NamedExprN(_, _) => KAssignment
    case MatchAsN(_, _, _) => KPending
    case _ => KNone
  }

  /** A node that stands where the grammar puts a pattern: a capture, a class pattern, or another pattern (value, sequence, mapping, star, alternatives). */
  predicate IsPattern(n: Node)
  {
    n.MatchAsN? || n.MatchClassN? || n.OtherN?
  }

  /** A node whose visit result can be extended by an attribute or a call. */
  predicate Chainable(n: Node)
  {
    KindOf(n) == KPending || KindOf(n) == KNone
  }

  predicate AllWellFormed(ns: seq<Node>)
    decreases ns, 0
  {
    forall i :: 0 <= i < |ns| ==> WellFormed(ns[i])
  }

  /**
   * Trees the source visits without raising: a walrus, a tuple or an
   * assignment never stands where the source appends a component to a chain
   * or reads a chain's components, imports name something, a star import has a
   * module, a class pattern holds patterns, and one with keyword patterns
   * has a dotted class.
   */
  predicate WellFormed(n: Node)
    decreases n, 1
  {
    match n
    case NameN(_, _, _, _) => true
    case AttributeN(v, _, _, _, _) => Chainable(v) && WellFormed(v)
    case CallN(f, args, _, _) => Chainable(f) && WellFormed(f) && AllWellFormed(args)
    case TupleN(elts, ctx) =>
      (ctx == Store ==> forall i :: 0 <= i < |elts| ==> KindOf(elts[i]) != KAssignment) && AllWellFormed(elts)
    case AssignN(targets, value) =>
      (forall i :: 0 <= i < |targets| ==> KindOf(targets[i]) != KAssignment)
      && AllWellFormed(targets) && WellFormed(value)
    case AnnAssignN(target, annotation, value, _, _) =>
      Chainable(target) && Chainable(annotation) && WellFormed(target) && WellFormed(annotation)
      && (value.Some? ==> WellFormed(value.value))
    case AugAssignN(target, value) => WellFormed(target) && WellFormed(value)
    case NamedExprN(target, value) => Chainable(target) && WellFormed(target) && WellFormed(value)
    case ImportN(names, _, _) => |names| >= 1 && names[0].name != "*"
    case ImportFromN(_, names, level, _, _) => level == 0 ==> |names| >= 1
    case GlobalN(_, _) => true
    case NonlocalN(_, _) => true
    case FunctionDefN(_, decorators, defaults, params, returnAnnotation, body) =>
      AllWellFormed(decorators) && AllWellFormed(defaults)
      && (forall i :: 0 <= i < |params| ==> ParamWellFormed(params[i]))
      && (returnAnnotation.Some? ==> WellFormed(returnAnnotation.value)) && AllWellFormed(body)
    case LambdaN(defaults, _, body) => AllWellFormed(defaults) && WellFormed(body)
    case ClassDefN(_, decorators, bases, keywords, body) =>
      AllWellFormed(decorators) && AllWellFormed(bases) && AllWellFormed(keywords) && AllWellFormed(body)
    case CompN(values, generators) =>
      AllWellFormed(values) && forall i :: 0 <= i < |generators| ==> GeneratorWellFormed(generators[i])
    case ForN(target, iter, body, orelse) =>
      WellFormed(target) && WellFormed(iter) && AllWellFormed(body) && AllWellFormed(orelse)
    case MatchClassN(cls, patterns, kwdAttrs, kwdPatterns, _, _) =>
      |kwdAttrs| == |kwdPatterns| && (|kwdAttrs| > 0 ==> KindOf(cls) == KPending)
      && WellFormed(cls)
      && (forall i :: 0 <= i < |patterns| ==> IsPattern(patterns[i])) && AllWellFormed(patterns)
      && (forall i :: 0 <= i < |kwdPatterns| ==> IsPattern(kwdPatterns[i])) && AllWellFormed(kwdPatterns)
    case MatchAsN(_, _, _) => true
    case OtherN(children) => AllWellFormed(children)
  }

  predicate ParamWellFormed(p: Param)
    decreases p, 0
  {
    p.annotation.Some? ==> Chainable(p.annotation.value) && WellFormed(p.annotation.value)
  }

  predicate GeneratorWellFormed(g: Generator)
    decreases g, 0
  {
    WellFormed(g.target) && WellFormed(g.iter) && AllWellFormed(g.ifs)
  }

  // ---------------------------------------------------------------------
  // Visitor state and the results of visiting a node

  /** `PendingAccess`, `AssignTarget` elements and `Assignment`, as returned by the visit methods. */
  datatype Result =
    | NoResult
    | Pending(chain: Chain)
    | Targets(elements: seq<Option<Chain>>)
    | Assignment(targets: seq<seq<Option<Chain>>>, value: Result)

  /**
   * The fields of one visitor: `accessed`, `in_augassign`, `_no_split`,
   * `pseudo_scopes_stack` and `outer_scopes_stack`; `warnings` is the log
   * of the warnings the visitors emit. `accessed` keeps the accesses that
   * `save_access` converts to names; `ParseNames` converts them at the end.
   */
  datatype State = State(
    accessed: seq<Access>,
    inAugassign: bool,
    noSplit: bool,
    scopes: Stack,
    outer: seq<Scope>,
    warnings: seq<string>)

  /**
   * What the source takes from the running interpreter: the names of
   * `builtins`, and for each importable module the names in its `__dict__`.
   */
  datatype Env = Env(builtins: seq<string>, modules: map<string, seq<string>>)

  /** `builtin_components`: every builtin name bound to itself, with line -1 and context `"none"`. */
  function BuiltinScope(env: Env): (sc: Scope)
    ensures forall b :: b in sc <==> b in env.builtins
    ensures forall b :: b in sc ==> sc[b] == [Component(b, -1, -1, NoCtx)]
  {
    map b | b in env.builtins :: [Component(b, -1, -1, NoCtx)]
  }

  /** A new visitor: no accesses, only the builtin scope, no outer scopes. */
  function Initial(env: Env, warnings: seq<string>): State
  {
    State([], false, false, [BuiltinScope(env)], [], warnings)
  }

  function Top(s: State): Scope
  {
    s.scopes[|s.scopes| - 1]
  }

  function WithTop(s: State, sc: Scope): (t: State)
    ensures Top(t) == sc
  {
    s.(scopes := s.scopes[..|s.scopes| - 1] + [sc])
  }

  /** What every visit leaves alone: the scopes below the innermost one, the outer scopes and the flags; the accesses and warnings only grow. */
  predicate Frame(s: State, t: State)
  {
    && |t.scopes| == |s.scopes|
    && t.scopes[..|t.scopes| - 1] == s.scopes[..|s.scopes| - 1]
    && t.outer == s.outer
    && t.inAugassign == s.inAugassign
    && t.noSplit == s.noSplit
    && s.accessed <= t.accessed
    && (Recorded(s.accessed) ==> Recorded(t.accessed))
    && s.warnings <= t.warnings
  }

  lemma FrameTrans(a: State, b: State, c: State)
    requires Frame(a, b) && Frame(b, c)
    ensures Frame(a, c)
  {
  }

  /** Accesses that can be converted to names: each has a component. */
  predicate Recorded(accesses: seq<Access>)
  {
    forall i :: 0 <= i < |accesses| ==> |accesses[i].components| >= 1
  }

  lemma RecordedAppend(xs: seq<Access>, ys: seq<Access>)
    requires Recorded(xs) && Recorded(ys)
    ensures Recorded(xs + ys)
  {
    forall i | 0 <= i < |xs + ys| ensures |(xs + ys)[i].components| >= 1 {
      if i >= |xs| {
        assert (xs + ys)[i] == ys[i - |xs|];
      }
    }
  }

  // ---------------------------------------------------------------------
  // Scope operations

  /** `overwrite_name`: forget `name` in the innermost scope. */
  function OverwriteName(s: State, name: string): (t: State)
    ensures Frame(s, t) && t.accessed == s.accessed && t.warnings == s.warnings
    ensures name !in Top(t)
    ensures forall k :: k != name ==> (k in Top(t) <==> k in Top(s))
    ensures forall k :: k != name && k in Top(s) ==> Top(t)[k] == Top(s)[k]
  {
    WithTop(s, Top(s) - {name})
  }

  /** `assign_name`: bind `name` to `components` in the innermost scope. */
  function AssignName(s: State, name: string, components: seq<Component>): (t: State)
    ensures Frame(s, t) && t.accessed == s.accessed && t.warnings == s.warnings
    ensures Top(t) == Top(s)[name := components]
  {
    var t := OverwriteName(s, name);
    WithTop(t, Top(t)[name := components])
  }

  /** The accesses `save_access` records for an access: its pieces, or the access whole when splitting is off. */
  function SavedAccesses(s: State, a: Access): (r: seq<Access>)
    requires |a.components| >= 1
    ensures Recorded(r)
  {
    if s.noSplit then [a] else SplitAccesses(a)
  }

  /** `save_access`: record the access, split at its calls unless splitting is off. */
  function SaveAccess(s: State, a: Access): (t: State)
    requires |a.components| >= 1
    ensures Frame(s, t) && t.scopes == s.scopes
    ensures t.accessed == s.accessed + SavedAccesses(s, a)
  {
    s.(accessed := s.accessed + SavedAccesses(s, a))
  }

  /**
   * `create_access`: when `key` is bound in the innermost scope, record an
   * access from its chain through `components` and return it.
   */
  function CreateAccess(s: State, key: string, components: Chain): (r: (State, Option<Access>))
    ensures Frame(s, r.0) && r.0.scopes == s.scopes
    ensures key !in Top(s) ==> r == (s, None)
    ensures key in Top(s) ==>
      var a := Access(NoneContext, Top(s)[key], components, []);
      r.1 == Some(a) && r.0.accessed == s.accessed + SavedAccesses(s, a)
  {
    if key !in Top(s) then (s, None)
    else
      var a := Access(NoneContext, Top(s)[key], components, []);
      (SaveAccess(s, a), Some(a))
  }

  /**
   * `resolve_pending_access`: a stored base name outside an augmented
   * assignment only forgets the name; otherwise the access is recorded, and a
   * deleted base is forgotten afterwards.
   */
  function ResolvePending(s: State, c: Chain): (r: (State, Option<Access>))
    ensures Frame(s, r.0)
  {
    var base := c[0];
    if base.context == Store && !s.inAugassign then (OverwriteName(s, base.name), None)
    else
      var (s1, a) := CreateAccess(s, base.name, c);
      if base.context == Del then (OverwriteName(s1, base.name), a) else (s1, a)
  }

  /** `dispatch_result`: resolve an assignment or a pending access; anything else is ignored. */
  function Dispatch(s: State, r: Result): (o: (State, Option<Access>))
    ensures Frame(s, o.0)
    decreases r, 0
  {
    match r
    case Assignment(targets, value) => ResolveAssignment(s, targets, value)
    case Pending(c) => ResolvePending(s, c)
    case _ => (s, None)
  }

  /** `resolve_assignment`: the value first, then the targets, which receive the value's access. */
  function ResolveAssignment(s: State, targets: seq<seq<Option<Chain>>>, value: Result): (o: (State, Option<Access>))
    ensures Frame(s, o.0)
    decreases value, 1
  {
    var (s1, a) := Dispatch(s, value);
    (ResolveTargets(s1, targets, a), a)
  }

  /** `_resolve_assign_targets`: a target that unpacks several elements does not receive the value. */
  function ResolveTargets(s: State, targets: seq<seq<Option<Chain>>>, value: Option<Access>): (t: State)
    ensures Frame(s, t)
    decreases |targets|
  {
    if |targets| == 0 then s
    else
      var v := if |targets[0]| <= 1 then value else None;
      ResolveTargets(ResolveElements(s, targets[0], v), targets[1..], value)
  }

  function ResolveElements(s: State, elements: seq<Option<Chain>>, value: Option<Access>): (t: State)
    ensures Frame(s, t)
    decreases |elements|
  {
    if |elements| == 0 then s
    else ResolveElements(ResolveTarget(s, elements[0], value), elements[1..], value)
  }

  /**
   * `_resolve_assign_target`: a single name is bound to the value's full
   * components and recorded, or forgotten when there is no value; a longer
   * chain is resolved as a pending access.
   */
  function ResolveTarget(s: State, target: Option<Chain>, value: Option<Access>): (t: State)
    ensures Frame(s, t)
  {
    match target
    case None => s
    case Some(c) =>
      if |c| == 1 then
        match value
        case None => OverwriteName(s, c[0].name)
        case Some(v) => CreateAccess(AssignName(s, c[0].name, FullComponents(v)), c[0].name, c).0
      else ResolvePending(s, c).0
  }

  /** `create_simple_access`: record a use of `name` on line `line`. */
  function CreateSimpleAccess(s: State, name: string, line: int): (t: State)
    ensures Frame(s, t) && t.scopes == s.scopes
  {
    CreateAccess(s, name, [Component(name, line, line, Load)]).0
  }

  /** The `track_parents` wrapper: a node visited at the top dispatches what it returns. */
  function Track(s: State, r: Result, top: bool): (t: State)
    ensures Frame(s, t)
  {
    if top then Dispatch(s, r).0 else s
  }

  // ---------------------------------------------------------------------
  // Imports, `global` and `nonlocal`

  /** Components for the dotted parts of a name, all on the same lines and in one context. */
  function Comps(parts: seq<string>, line: int, endLine: int, ctx: Ctx): (cs: seq<Component>)
    ensures |cs| == |parts|
    ensures forall i :: 0 <= i < |parts| ==> cs[i] == Component(parts[i], line, endLine, ctx)
  {
    seq(|parts|, i requires 0 <= i < |parts| => Component(parts[i], line, endLine, ctx))
  }

  /** `s.rstrip(c)`. */
  function RStrip(s: string, c: char): (r: string)
    ensures r <= s
    ensures |r| == 0 || r[|r| - 1] != c
    ensures forall i :: |r| <= i < |s| ==> s[i] == c
  {
    if |s| > 0 && s[|s| - 1] == c then RStrip(s[..|s| - 1], c) else s
  }

  /** The names a star import binds: those of the module's namespace that do not start with `_`. */
  function PublicNames(names: seq<string>): (r: seq<string>)
    ensures forall x :: x in r <==> x in names && !Text.StartsWith(x, "_")
  {
    if |names| == 0 then []
    else (if Text.StartsWith(names[0], "_") then [] else [names[0]]) + PublicNames(names[1..])
  }

  function StarImportWarning(moduleName: string): string
  {
    "Could not import module `" + moduleName + "` for parsing!"
  }

  /** An alias `as` part that Python treats as absent (`not alias`). */
  predicate Unaliased(al: Alias)
  {
    al.asname == None || al.asname == Some("")
  }

  /** The name an import binds before the prefix is added: an unaliased dotted module binds only its first part. */
  function ImportedName(al: Alias): string
  {
    if Unaliased(al) && '.' in al.name then Text.Split(al.name, '.')[0] else al.name
  }

  /** The scope key an import binds: `alias or import_name`. */
  function BoundName(al: Alias): string
  {
    if Unaliased(al) then ImportedName(al) else al.asname.value
  }

  /** The chain an import binds to its key. */
  function ImportChain(al: Alias, prefix: string, line: int, endLine: int): seq<Component>
  {
    Comps(Text.Split(prefix + ImportedName(al), '.'), line, endLine, Store)
  }

  /** The loop of `visit_Import` over the imported names. */
  function ImportNames(s: State, aliases: seq<Alias>, star: bool, prefix: string, prefixComps: seq<Component>, line: int, endLine: int): (t: State)
    ensures Frame(s, t) && t.warnings == s.warnings
    decreases |aliases|
  {
    if |aliases| == 0 then s
    else
      var al := aliases[0];
      var s1 := if star then s
        else SaveAccess(s, Access(ImportTarget, [], Comps(Text.Split(al.name, '.'), line, endLine, Load), prefixComps));
      var s2 := AssignName(s1, BoundName(al), ImportChain(al, prefix, line, endLine));
      ImportNames(s2, aliases[1..], star, prefix, prefixComps, line, endLine)
  }

  function Unaliases(names: seq<string>): (r: seq<Alias>)
    ensures |r| == |names|
    ensures forall i :: 0 <= i < |names| ==> r[i] == Alias(names[i], None)
  {
    seq(|names|, i requires 0 <= i < |names| => Alias(names[i], None))
  }

  /** `visit_Import`, for `import ...` (empty prefix) and for `from module import ...` (prefix `module.`). */
  function VisitImport(env: Env, s: State, moduleName: string, names: seq<Alias>, prefix: string, line: int, endLine: int): (t: State)
    requires |names| >= 1
    ensures Frame(s, t)
  {
    var star := names[0].name == "*";
    var (s1, aliases) :=
      if !star then (s, names)
      else if moduleName in env.modules then (s, Unaliases(PublicNames(env.modules[moduleName])))
      else (s.(warnings := s.warnings + [StarImportWarning(moduleName)]), []);
    var prefixComps := if prefix != "" then Comps(Text.Split(RStrip(prefix, '.'), '.'), line, endLine, Load) else [];
    var s2 := if prefix != "" then SaveAccess(s1, Access(ImportFrom, [], prefixComps, [])) else s1;
    ImportNames(s2, aliases, star, prefix, prefixComps, line, endLine)
  }

  /** Forget each name in turn. */
  function OverwriteAll(s: State, names: seq<string>): (t: State)
    ensures Frame(s, t) && t.accessed == s.accessed && t.warnings == s.warnings
    ensures forall x :: x in names ==> x !in Top(t)
    ensures forall x :: x !in names ==> (x in Top(t) <==> x in Top(s))
    ensures forall x :: x !in names && x in Top(s) ==> Top(t)[x] == Top(s)[x]
    decreases |names|
  {
    if |names| == 0 then s else OverwriteAll(OverwriteName(s, names[0]), names[1..])
  }

  /** The binding `global`/`nonlocal` copies in for one name: forget it, then bind it to `imports`' chain and record a use. */
  function BindFrom(s: State, name: string, imports: Scope, line: int): (t: State)
    requires name in imports
    ensures Frame(s, t)
  {
    CreateSimpleAccess(AssignName(OverwriteName(s, name), name, imports[name]), name, line)
  }

  /** The loop of `visit_Global`, with `imports` the outermost scope. */
  function GlobalNames(s: State, names: seq<string>, imports: Scope, line: int): (t: State)
    ensures Frame(s, t)
    decreases |names|
  {
    if |names| == 0 then s
    else
      var name := names[0];
      var s1 := if name in imports then BindFrom(s, name, imports, line) else OverwriteName(s, name);
      GlobalNames(s1, names[1..], imports, line)
  }

  /** The innermost scope of `stack` that binds `name`, searching from the end. */
  function Innermost(stack: seq<Scope>, name: string): (r: Option<Scope>)
    ensures r.None? ==> forall k :: 0 <= k < |stack| ==> name !in stack[k]
    ensures r.Some? ==>
      exists k :: 0 <= k < |stack| && stack[k] == r.value && name in stack[k]
        && (forall j :: k < j < |stack| ==> name !in stack[j])
  {
    if |stack| == 0 then None
    else if name in stack[|stack| - 1] then Some(stack[|stack| - 1])
    else Innermost(stack[..|stack| - 1], name)
  }

  /** The loop of `visit_Nonlocal`, with `stack` the outer scopes after the outermost. */
  function NonlocalNames(s: State, names: seq<string>, stack: seq<Scope>, line: int): (t: State)
    ensures Frame(s, t)
    decreases |names|
  {
    if |names| == 0 then s
    else
      var name := names[0];
      var s1 := match Innermost(stack, name)
        case Some(imports) => BindFrom(s, name, imports, line)
        case None => OverwriteName(s, name);
      NonlocalNames(s1, names[1..], stack, line)
  }

  // ---------------------------------------------------------------------
  // The walk

  /** The elements a target contributes to an `AssignTarget`: a tuple contributes its elements. */
  function Elements(r: Result): seq<Option<Chain>>
  {
    match r
    case Pending(c) => [Some(c)]
    case Targets(es) => es
    case _ => [None]
  }

  /** The name `None` that the component of a wildcard `_` carries; no identifier is empty. */
  const Wildcard: string := ""

  /** What visiting a pattern returns: a capture's one stored component, named `None` for the wildcard; nothing for any other pattern. */
  function PatternResult(p: Node): (r: Result)
    ensures r.Pending? <==> p.MatchAsN?
    ensures r.Pending? ==> |r.chain| == 1 && r.chain[0].context == Store
    ensures r.Pending? ==> (r.chain[0].name == Wildcard <==> p.captured.None? || p.captured == Some(Wildcard))
  {
    if p.MatchAsN? then
      Pending([Component(if p.captured.Some? then p.captured.value else Wildcard, p.line, p.endLine, Store)])
    else NoResult
  }

  /** The single element of `AssignTarget([target])`. */
  function AsTarget(r: Result): Option<Chain>
  {
    if r.Pending? then Some(r.chain) else None
  }

  /** The chain `r` extended by `c`, when `r` is a pending access. */
  function Extend(r: Result, c: Component): (e: Result)
    ensures e.Pending? <==> r.Pending?
    ensures r.Pending? ==> e.chain == r.chain + [c]
  {
    if r.Pending? then Pending(r.chain + [c]) else NoResult
  }

  /** `ImportTrackerVisitor.visit`: the new state and what the node returns. */
  function Visit(env: Env, s: State, n: Node, top: bool): (r: (State, Result))
    requires WellFormed(n)
    ensures Frame(s, r.0)
    decreases n, 2
  {
    match n
    case NameN(id, line, endLine, ctx) =>
      var r := Pending([Component(id, line, endLine, ctx)]);
      (Track(s, r, top), r)
    case AttributeN(_, _, _, _, _) => VisitAttribute(env, s, n, top)
    case CallN(_, _, _, _) => VisitCall(env, s, n, top)
    case TupleN(_, _) => VisitTuple(env, s, n)
    case AssignN(_, _) => VisitAssign(env, s, n)
    case AnnAssignN(_, _, _, _, _) => VisitAnnAssign(env, s, n)
    case AugAssignN(_, _) => (VisitAugAssign(env, s, n), NoResult)
    case NamedExprN(_, _) => VisitNamedExpr(env, s, n, top)
    case ImportN(names, line, endLine) => (VisitImport(env, s, "", names, "", line, endLine), NoResult)
    case ImportFromN(moduleName, names, level, line, endLine) =>
      if level > 0 then (OverwriteAll(s, RelativeNames(names)), NoResult)
      else (VisitImport(env, s, moduleName, names, moduleName + ".", line, endLine), NoResult)
    case GlobalN(names, line) =>
      if |s.outer| == 0 then (s, NoResult) else (GlobalNames(s, names, s.outer[0], line), NoResult)
    case NonlocalN(names, line) =>
      (NonlocalNames(s, names, if |s.outer| == 0 then [] else s.outer[1..], line), NoResult)
    case FunctionDefN(_, _, _, _, _, _) => (VisitFunctionDef(env, s, n), NoResult)
    case LambdaN(_, _, _) => (VisitLambda(env, s, n), NoResult)
    case ClassDefN(_, _, _, _, _) => (VisitClassDef(env, s, n), NoResult)
    case CompN(_, _) => (VisitComp(env, s, n), NoResult)
    case ForN(_, _, _, _) => (VisitFor(env, s, n), NoResult)
    case MatchClassN(_, _, _, _, _, _) => (VisitMatchClass(env, s, n), NoResult)
    case MatchAsN(_, _, _) =>
      var r := PatternResult(n);
      (Track(s, r, top), r)
    case OtherN(children) => (VisitAll(env, s, children), NoResult)
  }

  /** `visit_Attribute`: the value's chain, extended by the attribute. */
  function VisitAttribute(env: Env, s: State, n: Node, top: bool): (r: (State, Result))
    requires n.AttributeN? && WellFormed(n)
    ensures Frame(s, r.0)
    decreases n, 0
  {
    var (s1, inner) := Visit(env, s, n.value, false);
    var r := Extend(inner, Component(n.attr, n.line, n.endLine, n.ctx));
    (Track(s1, r, top), r)
  }

  /** `visit_Call`: the function's chain, extended by a call; the arguments are visited on their own. */
  function VisitCall(env: Env, s: State, n: Node, top: bool): (r: (State, Result))
    requires n.CallN? && WellFormed(n)
    ensures Frame(s, r.0)
    decreases n, 0
  {
    var (s1, inner) := Visit(env, s, n.func, false);
    var r := Extend(inner, Component(CallMarker, n.line, n.endLine, Load));
    var s2 := VisitAll(env, s1, n.args);
    (Track(s2, r, top), r)
  }

  /** `visit_AugAssign`: the value, then the target with `in_augassign` set. */
  function VisitAugAssign(env: Env, s: State, n: Node): (t: State)
    requires n.AugAssignN? && WellFormed(n)
    ensures Frame(s, t)
    decreases n, 0
  {
    var s1 := Visit(env, s, n.augValue, true).0;
    var s2 := Visit(env, s1.(inAugassign := true), n.augTarget, true).0;
    s2.(inAugassign := s1.inAugassign)
  }

  /** `visit_NamedExpr`: an assignment of the value to the target. */
  function VisitNamedExpr(env: Env, s: State, n: Node, top: bool): (r: (State, Result))
    requires n.NamedExprN? && WellFormed(n)
    ensures Frame(s, r.0)
    decreases n, 0
  {
    var (s1, v) := Visit(env, s, n.walrusValue, false);
    var (s2, t) := Visit(env, s1, n.walrusTarget, false);
    var r := Assignment([[AsTarget(t)]], v);
    (Track(s2, r, top), r)
  }

  /** `visit_Lambda`: defaults in place; the body in a new visitor on a copy of the outermost scope, with its parameters forgotten. */
  function VisitLambda(env: Env, s: State, n: Node): (t: State)
    requires n.LambdaN? && WellFormed(n)
    ensures Frame(s, t)
    decreases n, 0
  {
    var s1 := VisitAll(env, s, n.lambdaDefaults);
    var inner := OverwriteAll(Initial(env, s1.warnings).(scopes := [s1.scopes[0]]), n.lambdaParams);
    var inner1 := Visit(env, inner, n.lambdaBody, true).0;
    s1.(accessed := s1.accessed + inner1.accessed, warnings := inner1.warnings)
  }

  /** `visit_ClassDef`: the body runs on a pushed copy of the outermost scope, popped afterwards. */
  function VisitClassDef(env: Env, s: State, n: Node): (t: State)
    requires n.ClassDefN? && WellFormed(n)
    ensures Frame(s, t)
    decreases n, 0
  {
    var s1 := VisitAll(env, VisitAll(env, VisitAll(env, s, n.classDecorators), n.bases), n.keywords);
    var s2 := OverwriteName(s1, n.cname);
    var pushed := s2.(scopes := s2.scopes + [s2.scopes[0]]);
    var s3 := VisitAll(env, pushed, n.classBody);
    assert s3.scopes[..|s3.scopes| - 1] == pushed.scopes[..|pushed.scopes| - 1] == s2.scopes;
    s3.(scopes := s3.scopes[..|s3.scopes| - 1])
  }

  /** `visit_ListComp` and its kin: a new visitor on a copy of the innermost scope. */
  function VisitComp(env: Env, s: State, n: Node): (t: State)
    requires n.CompN? && WellFormed(n)
    ensures Frame(s, t)
    decreases n, 0
  {
    var inner := Initial(env, s.warnings).(scopes := [Top(s)]);
    var inner1 := VisitAll(env, VisitGenerators(env, inner, n.generators), n.values);
    s.(accessed := s.accessed + inner1.accessed, warnings := inner1.warnings)
  }

  /** `visit_For`: the iterable before the target. */
  function VisitFor(env: Env, s: State, n: Node): (t: State)
    requires n.ForN? && WellFormed(n)
    ensures Frame(s, t)
    decreases n, 0
  {
    var s1 := Visit(env, s, n.iter, true).0;
    var s2 := Visit(env, s1, n.forTarget, true).0;
    VisitAll(env, VisitAll(env, s2, n.forBody), n.orelse)
  }

  /** The names a relative import forgets: `asname or name`. */
  function RelativeNames(names: seq<Alias>): (r: seq<string>)
    ensures |r| == |names|
  {
    seq(|names|, i requires 0 <= i < |names| => if Unaliased(names[i]) then names[i].name else names[i].asname.value)
  }

  /** Visit each node at the top, in order. */
  function VisitAll(env: Env, s: State, ns: seq<Node>): (t: State)
    requires AllWellFormed(ns)
    ensures Frame(s, t)
    decreases ns
  {
    if |ns| == 0 then s else VisitAll(env, Visit(env, s, ns[0], true).0, ns[1..])
  }

  /** `visit_Tuple`: a stored tuple collects its elements' chains, any other visits its elements at the top. */
  function VisitTuple(env: Env, s: State, n: Node): (r: (State, Result))
    requires n.TupleN? && WellFormed(n)
    ensures Frame(s, r.0)
    decreases n, 0
  {
    if n.ctx == Store then
      var (s1, es) := VisitStoreElements(env, s, n.elts);
      (Track(s1, Targets(es), true), Targets(es))
    else (Track(VisitAll(env, s, n.elts), NoResult, true), NoResult)
  }

  /** The elements of stored tuples and assignment targets, visited below the top and flattened. */
  function VisitStoreElements(env: Env, s: State, elts: seq<Node>): (r: (State, seq<Option<Chain>>))
    requires AllWellFormed(elts)
    ensures Frame(s, r.0)
    decreases elts
  {
    if |elts| == 0 then (s, [])
    else
      var (s1, x) := Visit(env, s, elts[0], false);
      var (s2, rest) := VisitStoreElements(env, s1, elts[1..]);
      (s2, Elements(x) + rest)
  }

  /** The assignment targets, visited from the last to the first; their elements in that order. */
  function VisitTargetsReversed(env: Env, s: State, targets: seq<Node>): (r: (State, seq<seq<Option<Chain>>>))
    requires AllWellFormed(targets)
    ensures Frame(s, r.0) && |r.1| == |targets|
    decreases targets
  {
    if |targets| == 0 then (s, [])
    else
      var (s1, rest) := VisitTargetsReversed(env, s, targets[1..]);
      var (s2, t) := Visit(env, s1, targets[0], false);
      (s2, rest + [Elements(t)])
  }

  /** `visit_Assign`: the value, then the targets in reverse, all below the top; the assignment is then dispatched. */
  function VisitAssign(env: Env, s: State, n: Node): (r: (State, Result))
    requires n.AssignN? && WellFormed(n)
    ensures Frame(s, r.0)
    decreases n, 0
  {
    var (s1, v) := Visit(env, s, n.value, false);
    var (s2, ts) := VisitTargetsReversed(env, s1, n.targets);
    var r := Assignment(ts, v);
    (Track(s2, r, true), r)
  }

  /**
   * `visit_AnnAssign`: when the annotation is a chain, the value is resolved
   * on its own and the assigned value becomes the annotation's chain called.
   */
  function VisitAnnAssign(env: Env, s: State, n: Node): (r: (State, Result))
    requires n.AnnAssignN? && WellFormed(n)
    ensures Frame(s, r.0)
    decreases n, 0
  {
    var (s1, v) := if n.annValue.Some? then Visit(env, s, n.annValue.value, false) else (s, NoResult);
    var (s2, annot) := Visit(env, s1, n.annotation, false);
    var (s3, value) :=
      if annot.Pending? then
        (AnnotatedValue(s2, v), Extend(annot, Component(CallMarker, n.annLine, n.annEndLine, Load)))
      else (s2, v);
    var (s4, t) := Visit(env, s3, n.target, false);
    var r := Assignment([[AsTarget(t)]], value);
    (Track(s4, r, true), r)
  }

  /**
   * The value of an annotated assignment whose annotation replaces it: it is
   * dispatched, so a walrus value is resolved as an assignment.
   */
  function AnnotatedValue(s: State, v: Result): (t: State)
    ensures Frame(s, t)
    ensures v.Pending? ==> t == ResolvePending(s, v.chain).0
    ensures v.NoResult? ==> t == s
  {
    Dispatch(s, v).0
  }

  /** `visit_arg`: the argument is assigned its annotation's chain, called. */
  function VisitParam(env: Env, s: State, p: Param): (t: State)
    requires ParamWellFormed(p)
    ensures Frame(s, t)
    decreases p, 1
  {
    var target := [Component(p.name, p.line, p.endLine, Load)];
    var (s1, value) :=
      if p.annotation.Some? then
        var (s1, annot) := Visit(env, s, p.annotation.value, false);
        (s1, Extend(annot, Component(CallMarker, p.line, p.endLine, Load)))
      else (s, NoResult);
    Track(s1, Assignment([[Some(target)]], value), true)
  }

  function VisitParams(env: Env, s: State, params: seq<Param>): (t: State)
    requires forall i :: 0 <= i < |params| ==> ParamWellFormed(params[i])
    ensures Frame(s, t)
    decreases params
  {
    if |params| == 0 then s else VisitParams(env, VisitParam(env, s, params[0]), params[1..])
  }

  /**
   * `visit_FunctionDef`: decorators, defaults and the return annotation are
   * visited in the enclosing scope; arguments and body in a new visitor that
   * starts from a copy of the outermost scope and sees the outermost scope as
   * its innermost outer scope.
   */
  function VisitFunctionDef(env: Env, s: State, n: Node): (t: State)
    requires n.FunctionDefN? && WellFormed(n)
    ensures Frame(s, t)
    decreases n, 0
  {
    var s0 := OverwriteName(s, n.fname);
    var sd := VisitAll(env, s0, n.decorators);
    var s1 := VisitAll(env, sd, n.defaults);
    FrameTrans(s, s0, sd);
    FrameTrans(s, sd, s1);
    var inner := Initial(env, s1.warnings).(scopes := [s1.scopes[0]], outer := s1.outer + [s1.scopes[0]]);
    var inner1 := VisitParams(env, inner, n.params);
    var s2 := s1.(warnings := inner1.warnings);
    var s3 := if n.returnAnnotation.Some? then Visit(env, s2, n.returnAnnotation.value, true).0 else s2;
    FrameTrans(s, s2, s3);
    // the new visitor holds the enclosing scope by reference, so it sees what the return annotation bound
    var inner2 := VisitAll(env, inner1.(outer := s3.outer + [s3.scopes[0]], warnings := s3.warnings), n.body);
    assert Recorded(s3.accessed) ==> Recorded(s3.accessed + inner2.accessed) by {
      if Recorded(s3.accessed) {
        RecordedAppend(s3.accessed, inner2.accessed);
      }
    }
    FrameTrans(s, s3, s3.(accessed := s3.accessed + inner2.accessed, warnings := inner2.warnings));
    s3.(accessed := s3.accessed + inner2.accessed, warnings := inner2.warnings)
  }

  /** `visit_comprehension`: iterable, target and conditions, at the top. */
  function VisitGenerators(env: Env, s: State, generators: seq<Generator>): (t: State)
    requires forall i :: 0 <= i < |generators| ==> GeneratorWellFormed(generators[i])
    ensures Frame(s, t)
    decreases generators
  {
    if |generators| == 0 then s
    else
      var g := generators[0];
      assert GeneratorWellFormed(g);
      var s1 := Visit(env, s, g.iter, true).0;
      var s2 := Visit(env, s1, g.target, true).0;
      VisitGenerators(env, VisitAll(env, s2, g.ifs), generators[1..])
  }

  /** The results the positional patterns `patterns` contribute: one per capture, in order. */
  function Captures(patterns: seq<Node>): (r: seq<Result>)
    ensures |r| <= |patterns|
    ensures forall i :: 0 <= i < |r| ==> r[i].Pending?
  {
    if |patterns| == 0 then []
    else (if patterns[0].MatchAsN? then [PatternResult(patterns[0])] else []) + Captures(patterns[1..])
  }

  /** The target a keyword pattern receives: the captured name; none for the wildcard or a pattern that is not a capture. */
  function KwdTarget(p: Node): (t: Option<Chain>)
    ensures t.Some? <==> p.MatchAsN? && p.captured.Some?
    ensures t.Some? ==> t.value == [Component(p.captured.value, p.line, p.endLine, Store)]
  {
    if p.MatchAsN? && p.captured.Some? then
      var c: Chain := [Component(p.captured.value, p.line, p.endLine, Store)];
      Some(c)
    else None
  }

  /** The chain a keyword pattern `attr=...` of class `cls` is assigned: the class, called, then the attribute. */
  function KwdValue(cls: seq<Component>, attr: string, line: int, endLine: int): (c: Chain)
    ensures |c| == |cls| + 2 && c[..|cls|] == cls
    ensures c[|cls|].name == Parse.CallMarker && c[|cls| + 1].name == attr
  {
    cls + [Component(CallMarker, line, endLine, Load), Component(attr, line, endLine, Load)]
  }

  /** The chains of positional patterns that returned one: the captures, in order; captures alone change nothing. */
  function VisitPatterns(env: Env, s: State, patterns: seq<Node>): (r: (State, seq<Result>))
    requires AllWellFormed(patterns) && forall i :: 0 <= i < |patterns| ==> IsPattern(patterns[i])
    ensures Frame(s, r.0)
    ensures r.1 == Captures(patterns)
    ensures (forall i :: 0 <= i < |patterns| ==> patterns[i].MatchAsN?) ==> r.0 == s
    decreases patterns
  {
    if |patterns| == 0 then (s, [])
    else
      var (s1, a) := Visit(env, s, patterns[0], false);
      assert IsPattern(patterns[0]);
      assert patterns[0].MatchClassN? ==> a == NoResult;
      assert patterns[0].OtherN? ==> a == NoResult;
      assert a == PatternResult(patterns[0]);
      var (s2, rest) := VisitPatterns(env, s1, patterns[1..]);
      (s2, (if a == NoResult then [] else [a]) + rest)
  }

  /**
   * Keyword patterns: each target is assigned the class chain, called, then
   * the attribute; a wildcard `_` is assigned nothing.
   */
  function VisitKwdPatterns(env: Env, s: State, cls: seq<Component>, attrs: seq<string>, patterns: seq<Node>, line: int, endLine: int): (r: (State, seq<Result>))
    requires |attrs| == |patterns| && AllWellFormed(patterns)
    requires forall i :: 0 <= i < |patterns| ==> IsPattern(patterns[i])
    ensures Frame(s, r.0) && |r.1| == |attrs|
    ensures forall i :: 0 <= i < |r.1| ==> r.1[i].Assignment?
    ensures (forall i :: 0 <= i < |patterns| ==> patterns[i].MatchAsN?) ==> r.0 == s
    decreases patterns
  {
    if |patterns| == 0 then (s, [])
    else
      var (s1, t) := Visit(env, s, patterns[0], false);
      var target := if patterns[0].MatchAsN? && patterns[0].captured.None? then None else AsTarget(t);
      var access := Pending(KwdValue(cls, attrs[0], line, endLine));
      var (s2, rest) := VisitKwdPatterns(env, s1, cls, attrs[1..], patterns[1..], line, endLine);
      (s2, [Assignment([[target]], access)] + rest)
  }

  /** Each keyword pattern `attr=p` contributes one assignment: the class chain, called, then `attr`, to the name `p` captures. */
  lemma {:induction false} KwdPatternsAssign(env: Env, s: State, cls: seq<Component>, attrs: seq<string>, patterns: seq<Node>, line: int, endLine: int)
    requires |attrs| == |patterns| && AllWellFormed(patterns)
    requires forall i :: 0 <= i < |patterns| ==> IsPattern(patterns[i])
    ensures var r := VisitKwdPatterns(env, s, cls, attrs, patterns, line, endLine).1;
      forall i :: 0 <= i < |r| ==> r[i] == Assignment([[KwdTarget(patterns[i])]], Pending(KwdValue(cls, attrs[i], line, endLine)))
    decreases patterns
  {
    if |patterns| > 0 {
      var s1 := Visit(env, s, patterns[0], false).0;
      KwdPatternsStep(env, s, cls, attrs, patterns, line, endLine);
      KwdPatternsAssign(env, s1, cls, attrs[1..], patterns[1..], line, endLine);
      var r := VisitKwdPatterns(env, s, cls, attrs, patterns, line, endLine).1;
      var rest := VisitKwdPatterns(env, s1, cls, attrs[1..], patterns[1..], line, endLine).1;
      forall i | 0 <= i < |r|
        ensures r[i] == Assignment([[KwdTarget(patterns[i])]], Pending(KwdValue(cls, attrs[i], line, endLine)))
      {
        if i > 0 {
          assert r[i] == rest[i - 1];
          assert patterns[1..][i - 1] == patterns[i] && attrs[1..][i - 1] == attrs[i];
        }
      }
    }
  }

  /** The first keyword pattern's assignment, followed by the rest's. */
  lemma KwdPatternsStep(env: Env, s: State, cls: seq<Component>, attrs: seq<string>, patterns: seq<Node>, line: int, endLine: int)
    requires |attrs| == |patterns| > 0 && AllWellFormed(patterns)
    requires forall i :: 0 <= i < |patterns| ==> IsPattern(patterns[i])
    ensures var s1 := Visit(env, s, patterns[0], false).0;
      VisitKwdPatterns(env, s, cls, attrs, patterns, line, endLine).1
        == [Assignment([[KwdTarget(patterns[0])]], Pending(KwdValue(cls, attrs[0], line, endLine)))]
          + VisitKwdPatterns(env, s1, cls, attrs[1..], patterns[1..], line, endLine).1
  {
    var t := Visit(env, s, patterns[0], false).1;
    assert IsPattern(patterns[0]);
    assert patterns[0].MatchClassN? ==> t == NoResult;
    assert patterns[0].OtherN? ==> t == NoResult;
    assert patterns[0].MatchAsN? ==> t == PatternResult(patterns[0]);
  }

  function ResolveAllPending(s: State, accesses: seq<Result>): (t: State)
    ensures Frame(s, t)
    decreases |accesses|
  {
    if |accesses| == 0 then s
    else
      var s1 := if accesses[0].Pending? then ResolvePending(s, accesses[0].chain).0 else s;
      ResolveAllPending(s1, accesses[1..])
  }

  function ResolveAllAssignments(s: State, assigns: seq<Result>): (t: State)
    ensures Frame(s, t)
    decreases |assigns|
  {
    if |assigns| == 0 then s
    else
      var s1 := if assigns[0].Assignment? then ResolveAssignment(s, assigns[0].targets, assigns[0].value).0 else s;
      ResolveAllAssignments(s1, assigns[1..])
  }

  /**
   * `visit_MatchClass`: the class chain is dispatched at once; positional
   * captures are resolved, then keyword captures are assigned without
   * splitting.
   */
  function VisitMatchClass(env: Env, s: State, n: Node): (t: State)
    requires n.MatchClassN? && WellFormed(n)
    ensures Frame(s, t)
    decreases n, 1
  {
    var (s1, cls) := Visit(env, s, n.cls, true);
    VisitClassArguments(env, s1, if cls.Pending? then cls.chain else [], n)
  }

  /** The patterns of a class pattern whose class evaluated to the chain `cls`. */
  function VisitClassArguments(env: Env, s: State, cls: seq<Component>, n: Node): (t: State)
    requires n.MatchClassN? && WellFormed(n)
    ensures Frame(s, t)
    decreases n, 0
  {
    MatchClassParts(n);
    var (s1, accesses) := VisitPatterns(env, s, n.patterns);
    var (s2, assigns) := VisitKwdPatterns(env, s1, cls, n.kwdAttrs, n.kwdPatterns, n.line, n.endLine);
    FrameTrans(s, s1, s2);
    ResolveMatched(s2, accesses, assigns)
  }

  /**
   * The end of a class pattern: the captured names are forgotten, then the
   * keyword assignments are resolved without splitting their values.
   */
  function ResolveMatched(s: State, accesses: seq<Result>, assigns: seq<Result>): (t: State)
    ensures Frame(s, t)
  {
    var s1 := ResolveAllPending(s, accesses);
    var s2 := ResolveAllAssignments(s1.(noSplit := true), assigns);
    Track(s2.(noSplit := s1.noSplit), NoResult, true)
  }

  lemma MatchClassParts(n: Node)
    requires n.MatchClassN? && WellFormed(n)
    ensures WellFormed(n.cls) && |n.kwdAttrs| == |n.kwdPatterns|
    ensures AllWellFormed(n.patterns) && forall i :: 0 <= i < |n.patterns| ==> IsPattern(n.patterns[i])
    ensures AllWellFormed(n.kwdPatterns) && forall i :: 0 <= i < |n.kwdPatterns| ==> IsPattern(n.kwdPatterns[i])
  {
  }

  /** `parse_names`: the names a new visitor records over a whole module. */
  function ParseNames(env: Env, tree: Node): (r: seq<Name>)
    requires WellFormed(tree)
    ensures var accesses := Visit(env, Initial(env, []), tree, true).0.accessed;
      && |r| == |accesses|
      && forall i :: 0 <= i < |r| ==>
        && r[i].importComponents == Names(FullComponents(accesses[i]))
        && r[i].context == accesses[i].context
        && r[i].resolvedLocation == None
  {
    var accesses := Visit(env, Initial(env, []), tree, true).0.accessed;
    assert Recorded(accesses);
    ToNames(accesses)
  }

  /** `Access.to_name` on every access. */
  function ToNames(accesses: seq<Access>): (r: seq<Name>)
    requires Recorded(accesses)
    ensures |r| == |accesses|
    ensures forall i {:trigger r[i]} :: 0 <= i < |accesses| ==> r[i] == ToName(accesses[i])
  {
    seq(|accesses|, i requires 0 <= i < |accesses| => ToName(accesses[i]))
  }
}
