/**
 * Resolving a name's import chain to the location of the object it finally
 * refers to (`sphinx_codeautolink/extension/resolve.py`).
 *
 * The live interpreter the resolver introspects is an object graph: each
 * object has a kind (module, class, routine, callable instance, other), an
 * attribute map, a method resolution order, a module and qualified name and
 * a return-type hint; `import_module` is a map from dotted names to objects.
 * An attribute whose value is `None` is simply absent from the map.
 * `CouldNotResolve` is the `Err` side of a `Result`, holding its message.
 */
module Resolve {
  import opened Wrappers
  import opened Text
  import Parse

  type ObjId = int

  datatype Kind = ModuleKind | ClassKind | RoutineKind | CallableKind | OtherKind

  /** The `return` entry of `get_type_hints`: absent, a type, a `Union` (or `X | Y`) of hints, a generic alias, or anything else. */
  datatype Hint = NoHint | TypeHint(target: ObjId) | UnionHint(args: seq<Hint>) | GenericHint | OtherHint

  /** `moduleName` and `qualname` are `None` where `__module__` or `__qualname__` is missing or not a string. */
  datatype Obj = Obj(
    kind: Kind,
    attrs: map<string, ObjId>,
    moduleName: Option<string>,
    qualname: Option<string>,
    repr: string,
    mro: seq<ObjId>,
    returnHint: Hint)

  datatype Graph = Graph(objs: map<ObjId, Obj>, modules: map<string, ObjId>, noneType: ObjId)

  predicate HintIn(objs: map<ObjId, Obj>, h: Hint)
  {
    match h
    case TypeHint(t) => t in objs
    case UnionHint(args) => forall i :: 0 <= i < |args| ==> HintIn(objs, args[i])
    case _ => true
  }

  predicate IsClass(g: Graph, o: ObjId)
  {
    o in g.objs && g.objs[o].kind == ClassKind
  }

  predicate IsRoutine(g: Graph, o: ObjId)
  {
    o in g.objs && g.objs[o].kind == RoutineKind
  }

  /** Every reference stays inside the graph; classes have a module and a qualified name, their MRO holds classes; classes and callable instances have `__call__`. */
  ghost predicate Valid(g: Graph)
  {
    && (forall m :: m in g.modules ==> g.modules[m] in g.objs)
    && (forall o :: o in g.objs ==>
      var ob := g.objs[o];
      && (forall a :: a in ob.attrs ==> ob.attrs[a] in g.objs)
      && (forall i :: 0 <= i < |ob.mro| ==> IsClass(g, ob.mro[i]))
      && HintIn(g.objs, ob.returnHint)
      && (ob.kind == ClassKind ==> ob.moduleName.Some? && ob.qualname.Some?)
      && (ob.kind == ClassKind || ob.kind == CallableKind ==> "__call__" in ob.attrs))
  }

  /** `fully_qualified_name`, `None` where it raises. */
  function Fqn(g: Graph, o: ObjId): (r: Option<string>)
    requires o in g.objs
    ensures r.Some? <==> g.objs[o].moduleName.Some? && g.objs[o].qualname.Some?
  {
    var ob := g.objs[o];
    if ob.moduleName.Some? && ob.qualname.Some? then Some(ob.moduleName.value + "." + ob.qualname.value) else None
  }

  /** The fully qualified name of a class, which always has one. */
  function ClassName(g: Graph, o: ObjId): (r: string)
    requires Valid(g) && IsClass(g, o)
    ensures Fqn(g, o) == Some(r)
  {
    Fqn(g, o).value
  }

  /** `get_name_for_debugging` */
  function DebugName(g: Graph, o: ObjId): string
    requires o in g.objs
  {
    var n := Fqn(g, o);
    if n.Some? then n.value else g.objs[o].repr
  }

  /** The fields of a `Cursor`. */
  datatype CursorState = CursorState(location: string, value: ObjId, instance: bool)

  // ---------------------------------------------------------------------
  // closest_module and make_cursor
  // ---------------------------------------------------------------------

  /** The loop of `closest_module` from prefix length `i`: the first length whose longer prefix fails to import, or the whole length. */
  function FirstFailure(g: Graph, comps: seq<string>, i: nat): (k: nat)
    requires 1 <= i <= |comps|
    ensures i <= k <= |comps|
    ensures forall j :: i < j <= k ==> Join(comps[..j], ".") in g.modules
    ensures k < |comps| ==> Join(comps[..k + 1], ".") !in g.modules
    decreases |comps| - i
  {
    if i == |comps| then i
    else if Join(comps[..i + 1], ".") !in g.modules then i
    else FirstFailure(g, comps, i + 1)
  }

  /**
   * `closest_module`: fails when the first component does not import;
   * otherwise the module of the first prefix length `k` whose next longer
   * prefix does not import (all prefixes up to `k` import), and `k`.
   */
  function ModulePrefix(g: Graph, comps: seq<string>): (r: Result<(ObjId, nat), string>)
    requires |comps| >= 1
    ensures r.Err? <==> comps[0] !in g.modules
    ensures r.Err? ==> r.error == "Could not import " + comps[0] + "."
    ensures r.Ok? ==>
      var (mod, k) := r.value;
      && 1 <= k <= |comps|
      && (forall j :: 1 <= j <= k ==> Join(comps[..j], ".") in g.modules)
      && (k < |comps| ==> Join(comps[..k + 1], ".") !in g.modules)
      && mod == g.modules[Join(comps[..k], ".")]
  {
    if comps[0] !in g.modules then Err("Could not import " + comps[0] + ".")
    else
      assert Join(comps[..1], ".") == comps[0];
      var k := FirstFailure(g, comps, 1);
      Ok((g.modules[Join(comps[..k], ".")], k))
  }

  /** `make_cursor`: the components after the module prefix, and a cursor on that module, not an instance. */
  function MakeCursorOf(g: Graph, comps: seq<string>): (r: Result<(seq<string>, CursorState), string>)
    requires Valid(g) && |comps| >= 1
    ensures r.Err? <==> comps[0] !in g.modules
    ensures r.Ok? ==>
      var (rest, c) := r.value;
      && c.value in g.objs && !c.instance
      && (exists k ::
            && 1 <= k <= |comps| && rest == comps[k..] && c.location == Join(comps[..k], ".")
            && Join(comps[..k], ".") in g.modules && c.value == g.modules[Join(comps[..k], ".")])
  {
    match ModulePrefix(g, comps)
    case Err(e) => Err(e)
    case Ok((mod, k)) => Ok((comps[k..], CursorState(Join(comps[..k], "."), mod, false)))
  }

  // ---------------------------------------------------------------------
  // locate_type
  // ---------------------------------------------------------------------

  /** The loop over `__mro__` in `locate_type`: the name of the first class that documents `comp`. */
  function DocumentedBase(g: Graph, inv: set<string>, mro: seq<ObjId>, comp: string): (r: Option<string>)
    requires Valid(g) && forall i :: 0 <= i < |mro| ==> IsClass(g, mro[i])
    ensures r.Some? ==> exists k ::
      && 0 <= k < |mro| && r.value == ClassName(g, mro[k])
      && r.value + "." + comp in inv
      && forall j :: 0 <= j < k ==> ClassName(g, mro[j]) + "." + comp !in inv
    ensures r.None? ==> forall j :: 0 <= j < |mro| ==> ClassName(g, mro[j]) + "." + comp !in inv
  {
    if |mro| == 0 then None
    else if ClassName(g, mro[0]) + "." + comp in inv then Some(ClassName(g, mro[0]))
    else
      var r := DocumentedBase(g, inv, mro[1..], comp);
      assert forall j :: 1 <= j < |mro| ==> mro[1..][j - 1] == mro[j];
      r
  }

  /**
   * One pass of the loop body of `locate_type`, before the base-class
   * fallback: the attribute's cursor, with `instance` reset for a class and
   * the location normalised for a class or a routine missing from the
   * inventory; an error when the attribute does not exist.
   */
  function Step(g: Graph, inv: set<string>, c: CursorState, comp: string): (r: Result<CursorState, string>)
    requires Valid(g) && c.value in g.objs
    ensures r.Ok? ==> r.value.value in g.objs
  {
    var location := c.location + "." + comp;
    var attrs := g.objs[c.value].attrs;
    if comp !in attrs then Err(location + " does not exist.")
    else
      var v := attrs[comp];
      var normalise := IsClass(g, v) || (IsRoutine(g, v) && location !in inv);
      var name := Fqn(g, v);
      Ok(CursorState(
        if normalise && name.Some? then name.value else location,
        v,
        if IsClass(g, v) then false else c.instance))
  }

  /** The base-class fallback applies: the previous value is a class, the new location is not documented, and a class of its MRO documents the component. */
  function Fallback(g: Graph, inv: set<string>, c: CursorState, next: CursorState, comp: string): (r: Option<string>)
    requires Valid(g) && c.value in g.objs
    ensures r.Some? ==> IsClass(g, c.value) && next.location !in inv && r.value + "." + comp in inv
  {
    if IsClass(g, c.value) && next.location !in inv then DocumentedBase(g, inv, g.objs[c.value].mro, comp) else None
  }

  /**
   * `locate_type`, with the base-class fallback tried at most once per
   * component (`retried` says it was tried for `comps[0]`): the walk
   * restarts from the documenting class with the location it documents.
   */
  function LocateTypeOf(g: Graph, inv: set<string>, c: CursorState, comps: seq<string>, retried: bool): (r: Result<CursorState, string>)
    requires Valid(g) && c.value in g.objs
    ensures r.Ok? ==> r.value.value in g.objs
    ensures comps == [] ==> r == Ok(c)
    decreases |comps|, if retried then 0 else 1
  {
    if comps == [] then Ok(c)
    else
      match Step(g, inv, c, comps[0])
      case Err(e) => Err(e)
      case Ok(next) =>
        var base := if retried then None else Fallback(g, inv, c, next, comps[0]);
        if base.Some? then LocateTypeOf(g, inv, c.(location := base.value), comps, true)
        else LocateTypeOf(g, inv, next, comps[1..], false)
  }

  /**
   * `locate_type` as written: the fallback recurses on the same component
   * every time it applies. `None` stands for exhausting `fuel` recursions,
   * Python's `RecursionError`.
   */
  function LocateTypeAsWritten(g: Graph, inv: set<string>, c: CursorState, comps: seq<string>, fuel: nat): (r: Option<Result<CursorState, string>>)
    requires Valid(g) && c.value in g.objs
    ensures r.Some? && r.value.Ok? ==> r.value.value.value in g.objs
    ensures comps == [] ==> r == Some(Ok(c))
    decreases fuel, |comps|
  {
    if comps == [] then Some(Ok(c))
    else
      match Step(g, inv, c, comps[0])
      case Err(e) => Some(Err(e))
      case Ok(next) =>
        var base := Fallback(g, inv, c, next, comps[0]);
        if base.Some? then (if fuel == 0 then None else LocateTypeAsWritten(g, inv, c.(location := base.value), comps, fuel - 1))
        else LocateTypeAsWritten(g, inv, next, comps[1..], fuel)
  }

  // ---------------------------------------------------------------------
  // call_value and get_return_annotation
  // ---------------------------------------------------------------------

  /**
   * `get_return_annotation`: a two-argument union with `NoneType` on one
   * side is unwrapped once to its other side; the result must then be a
   * plain class, or the call cannot be followed.
   */
  function ReturnAnnotation(g: Graph, h: Hint): (r: Option<ObjId>)
    ensures r.Some? ==> IsClass(g, r.value)
    ensures h.NoHint? || h.GenericHint? || h.OtherHint? ==> r.None?
    ensures h.TypeHint? ==> r == if IsClass(g, h.target) then Some(h.target) else None
  {
    var none := TypeHint(g.noneType);
    var a := if h.UnionHint? && |h.args| == 2 then
        (if h.args[0] == none then h.args[1] else if h.args[1] == none then h.args[0] else h)
      else h;
    if a.TypeHint? && IsClass(g, a.target) then Some(a.target) else None
  }

  predicate IsCallableInstance(g: Graph, o: ObjId)
  {
    o in g.objs && (g.objs[o].kind == ClassKind || g.objs[o].kind == CallableKind)
  }

  /** The routine a call runs: a callable instance's (or an instance's class's) `__call__`, or the routine itself. */
  function Callee(g: Graph, o: ObjId): (f: ObjId)
    requires Valid(g) && (IsCallableInstance(g, o) || IsRoutine(g, o))
    ensures f in g.objs
    ensures IsRoutine(g, o) ==> f == o
  {
    if IsCallableInstance(g, o) then g.objs[o].attrs["__call__"] else o
  }

  /**
   * `call_value`: an uninstantiated class becomes an instance; a callable
   * that is not a routine is replaced by its `__call__`; anything else that
   * is not a routine cannot be called; the routine's return annotation
   * gives the new value and location, as an instance.
   */
  function CallValueOf(g: Graph, c: CursorState): (r: Result<CursorState, string>)
    requires Valid(g) && c.value in g.objs
    ensures r.Ok? ==> r.value.value in g.objs && r.value.instance
    ensures IsClass(g, c.value) && !c.instance ==> r == Ok(c.(instance := true))
    ensures r.Ok? && !(IsClass(g, c.value) && !c.instance) ==>
      IsClass(g, r.value.value) && r.value.location == ClassName(g, r.value.value)
    ensures !(IsClass(g, c.value) && !c.instance) ==>
      (r == Err("") <==> !IsCallableInstance(g, c.value) && !IsRoutine(g, c.value))
    ensures !(IsClass(g, c.value) && !c.instance) && (IsCallableInstance(g, c.value) || IsRoutine(g, c.value)) ==>
      var t := ReturnAnnotation(g, g.objs[Callee(g, c.value)].returnHint);
      && (t.Some? ==> r.Ok? && r.value.value == t.value)
      && (t.None? ==> r == Err("Unable to follow return annotation of " + DebugName(g, Callee(g, c.value)) + "."))
  {
    if IsClass(g, c.value) && !c.instance then Ok(c.(instance := true))
    else if !IsCallableInstance(g, c.value) && !IsRoutine(g, c.value) then Err("")
    else
      var f := Callee(g, c.value);
      match ReturnAnnotation(g, g.objs[f].returnHint)
      case None => Err("Unable to follow return annotation of " + DebugName(g, f) + ".")
      case Some(t) => Ok(CursorState(ClassName(g, t), t, true))
  }

  // ---------------------------------------------------------------------
  // resolve_location
  // ---------------------------------------------------------------------

  /** The location a final `locate_type` gives. */
  function LocationOf(g: Graph, inv: set<string>, c: CursorState, comps: seq<string>): Result<string, string>
    requires Valid(g) && c.value in g.objs
  {
    match LocateTypeOf(g, inv, c, comps, false)
    case Err(e) => Err(e)
    case Ok(d) => Ok(d.location)
  }

  /** At a call marker: follow the components gathered since the last call, then call the value. */
  function Advance(g: Graph, inv: set<string>, c: CursorState, comps: seq<string>): (r: Result<CursorState, string>)
    requires Valid(g) && c.value in g.objs
    ensures r.Ok? ==> r.value.value in g.objs
  {
    match LocateTypeOf(g, inv, c, comps, false)
    case Err(e) => Err(e)
    case Ok(d) => CallValueOf(g, d)
  }

  /** A call to `make_cursor` is possible: a cursor exists, or the gathered components are not empty. */
  predicate Ready(g: Graph, cursor: Option<CursorState>, buf: seq<string>)
  {
    if cursor.Some? then cursor.value.value in g.objs else |buf| >= 1
  }

  /**
   * The loop of `resolve_location` over the chain `rest` that is left, with
   * the components gathered since the last call in `buf` and the cursor, if
   * one was made.
   */
  function Walk(g: Graph, inv: set<string>, rest: seq<string>, buf: seq<string>, cursor: Option<CursorState>): Result<string, string>
    requires Valid(g)
    requires Ready(g, cursor, buf) || (cursor.None? && |rest| >= 1 && rest[0] != Parse.CallMarker)
    decreases |rest|
  {
    if rest == [] then
      if cursor.None? then
        match MakeCursorOf(g, buf)
        case Err(_) => Ok(Join(buf, "."))
        case Ok((comps, c)) => LocationOf(g, inv, c, comps)
      else LocationOf(g, inv, cursor.value, buf)
    else if rest[0] != Parse.CallMarker then Walk(g, inv, rest[1..], buf + [rest[0]], cursor)
    else
      var start := if cursor.None? then MakeCursorOf(g, buf) else Ok((buf, cursor.value));
      match start
      case Err(e) => Err(e)
      case Ok((comps, c)) =>
        match Advance(g, inv, c, comps)
        case Err(e) => Err(e)
        case Ok(d) => Walk(g, inv, rest[1..], [], Some(d))
  }

  /** A chain `resolve_location` accepts: it starts with a component, not a call. */
  predicate Chain(chain: seq<string>)
  {
    |chain| >= 1 && chain[0] != Parse.CallMarker
  }

  /** `resolve_location(name, inventory)`: the location, or the `CouldNotResolve` message. */
  function Resolved(g: Graph, inv: set<string>, chain: seq<string>): Result<string, string>
    requires Valid(g) && Chain(chain)
  {
    Walk(g, inv, chain, [], None)
  }

  // ---------------------------------------------------------------------
  // The same resolution, segment by segment
  // ---------------------------------------------------------------------

  /** The chain cut at its call markers: one more segment than markers, none holding a marker. */
  function Segments(chain: seq<string>): (r: seq<seq<string>>)
    ensures |r| >= 1
    ensures forall i :: 0 <= i < |r| ==> Parse.CallMarker !in r[i]
  {
    if chain == [] then [[]]
    else
      var t := Segments(chain[1..]);
      if chain[0] == Parse.CallMarker then [[]] + t
      else [[chain[0]] + t[0]] + t[1..]
  }

  /** From a cursor: follow `buf` and call at each remaining marker, each time following the next segment; the last segment gives the location. */
  function ChainFrom(g: Graph, inv: set<string>, c: CursorState, buf: seq<string>, segs: seq<seq<string>>): Result<string, string>
    requires Valid(g) && c.value in g.objs
    decreases |segs|
  {
    if segs == [] then LocationOf(g, inv, c, buf)
    else
      match Advance(g, inv, c, buf)
      case Err(e) => Err(e)
      case Ok(d) => ChainFrom(g, inv, d, segs[0], segs[1..])
  }

  /**
   * Resolution by segments: the first segment makes the cursor; without a
   * call, a first segment that does not import falls back to its dotted
   * text.
   */
  function BySegments(g: Graph, inv: set<string>, segs: seq<seq<string>>): Result<string, string>
    requires Valid(g) && |segs| >= 1 && |segs[0]| >= 1
  {
    match MakeCursorOf(g, segs[0])
    case Err(e) => if |segs| == 1 then Ok(Join(segs[0], ".")) else Err(e)
    case Ok((comps, c)) => ChainFrom(g, inv, c, comps, segs[1..])
  }

  lemma {:induction false} WalkSegments(g: Graph, inv: set<string>, rest: seq<string>, buf: seq<string>, cursor: Option<CursorState>)
    requires Valid(g)
    requires Ready(g, cursor, buf) || (cursor.None? && |rest| >= 1 && rest[0] != Parse.CallMarker)
    ensures var t := Segments(rest);
      && (cursor.None? ==> |buf + t[0]| >= 1 && Walk(g, inv, rest, buf, cursor) == BySegments(g, inv, [buf + t[0]] + t[1..]))
      && (cursor.Some? ==> Walk(g, inv, rest, buf, cursor) == ChainFrom(g, inv, cursor.value, buf + t[0], t[1..]))
    decreases |rest|
  {
    var t := Segments(rest);
    if rest == [] {
      assert buf + t[0] == buf;
    } else if rest[0] != Parse.CallMarker {
      var u := Segments(rest[1..]);
      WalkSegments(g, inv, rest[1..], buf + [rest[0]], cursor);
      assert buf + [rest[0]] + u[0] == buf + t[0];
      assert t[1..] == u[1..];
    } else {
      var u := Segments(rest[1..]);
      assert t[0] == [] && t[1..] == u;
      assert buf + t[0] == buf;
      var start := if cursor.None? then MakeCursorOf(g, buf) else Ok((buf, cursor.value));
      if start.Ok? {
        var (comps, c) := start.value;
        var a := Advance(g, inv, c, comps);
        if a.Ok? {
          WalkSegments(g, inv, rest[1..], [], Some(a.value));
          assert [] + u[0] == u[0];
        }
      }
    }
  }

  /** `resolve_location` agrees with resolution segment by segment. */
  lemma ResolvedBySegments(g: Graph, inv: set<string>, chain: seq<string>)
    requires Valid(g) && Chain(chain)
    ensures |Segments(chain)[0]| >= 1
    ensures Resolved(g, inv, chain) == BySegments(g, inv, Segments(chain))
  {
    var t := Segments(chain);
    WalkSegments(g, inv, chain, [], None);
    assert [] + t[0] == t[0];
    assert [t[0]] + t[1..] == t;
  }

  lemma {:induction false} SegmentsFree(chain: seq<string>)
    requires Parse.CallMarker !in chain
    ensures Segments(chain) == [chain]
  {
    if chain != [] {
      assert Parse.CallMarker !in chain[1..];
      SegmentsFree(chain[1..]);
      assert [chain[0]] + chain[1..] == chain;
    }
  }

  /** Without a call, a chain whose first component does not import resolves to its own dotted text. */
  lemma UnimportableFallsBack(g: Graph, inv: set<string>, chain: seq<string>)
    requires Valid(g) && Chain(chain) && Parse.CallMarker !in chain
    requires chain[0] !in g.modules
    ensures Resolved(g, inv, chain) == Ok(Join(chain, "."))
  {
    ResolvedBySegments(g, inv, chain);
    SegmentsFree(chain);
  }

  /** With a call, a chain whose first component does not import cannot be resolved. */
  lemma UnimportableCallFails(g: Graph, inv: set<string>, chain: seq<string>)
    requires Valid(g) && Chain(chain) && Parse.CallMarker in chain
    requires chain[0] !in g.modules
    ensures Resolved(g, inv, chain).Err?
  {
    ResolvedBySegments(g, inv, chain);
    SegmentsMarker(chain);
    var t := Segments(chain);
    assert t[0][0] == chain[0] by {
      SegmentsHead(chain);
    }
  }

  lemma {:induction false} SegmentsMarker(chain: seq<string>)
    requires Parse.CallMarker in chain
    ensures |Segments(chain)| >= 2
  {
    if chain[0] != Parse.CallMarker {
      SegmentsMarker(chain[1..]);
    }
  }

  lemma SegmentsHead(chain: seq<string>)
    requires Chain(chain)
    ensures |Segments(chain)[0]| >= 1 && Segments(chain)[0][0] == chain[0]
  {
  }

  // ---------------------------------------------------------------------
  // Properties of the steps
  // ---------------------------------------------------------------------

  /** A missing attribute stops the walk with "<location> does not exist.". */
  lemma MissingAttribute(g: Graph, inv: set<string>, c: CursorState, comp: string, rest: seq<string>, retried: bool)
    requires Valid(g) && c.value in g.objs && comp !in g.objs[c.value].attrs
    ensures LocateTypeOf(g, inv, c, [comp] + rest, retried) == Err(c.location + "." + comp + " does not exist.")
  {
  }

  /** A class attribute is located at the class's own name and is not an instance, unless the fallback applies. */
  lemma ClassAttribute(g: Graph, inv: set<string>, c: CursorState, comp: string)
    requires Valid(g) && c.value in g.objs && comp in g.objs[c.value].attrs
    requires IsClass(g, g.objs[c.value].attrs[comp])
    requires !IsClass(g, c.value) || ClassName(g, g.objs[c.value].attrs[comp]) in inv
    ensures var v := g.objs[c.value].attrs[comp];
      LocateTypeOf(g, inv, c, [comp], false) == Ok(CursorState(ClassName(g, v), v, false))
  {
    var v := g.objs[c.value].attrs[comp];
    assert Step(g, inv, c, comp) == Ok(CursorState(ClassName(g, v), v, false));
  }

  /** A routine that is not documented under its access path is located at its own name, when it has one. */
  lemma RoutineAttribute(g: Graph, inv: set<string>, c: CursorState, comp: string)
    requires Valid(g) && c.value in g.objs && comp in g.objs[c.value].attrs
    requires IsRoutine(g, g.objs[c.value].attrs[comp]) && !IsClass(g, c.value)
    ensures var v := g.objs[c.value].attrs[comp];
      var path := c.location + "." + comp;
      LocateTypeOf(g, inv, c, [comp], false)
        == Ok(CursorState(if path !in inv && Fqn(g, v).Some? then Fqn(g, v).value else path, v, c.instance))
  {
  }

  /**
   * An inherited member that the class does not document itself but one of
   * its bases does is located under the first such base, when the member is
   * not a class.
   */
  lemma InheritedMember(g: Graph, inv: set<string>, c: CursorState, comp: string)
    requires Valid(g) && IsClass(g, c.value) && comp in g.objs[c.value].attrs
    requires !IsClass(g, g.objs[c.value].attrs[comp])
    requires Step(g, inv, c, comp).Ok? && Step(g, inv, c, comp).value.location !in inv
    requires DocumentedBase(g, inv, g.objs[c.value].mro, comp).Some?
    ensures var base := DocumentedBase(g, inv, g.objs[c.value].mro, comp).value;
      && base + "." + comp in inv
      && LocateTypeOf(g, inv, c, [comp], false)
        == Ok(CursorState(base + "." + comp, g.objs[c.value].attrs[comp], c.instance))
  {
    var base := DocumentedBase(g, inv, g.objs[c.value].mro, comp).value;
    var c1 := c.(location := base);
    assert Step(g, inv, c1, comp) == Ok(CursorState(base + "." + comp, g.objs[c.value].attrs[comp], c.instance));
  }

  /** An empty union arm list, a union without `NoneType`, or a union with more arms is not followed; `Optional[T]` of a class `T` is. */
  lemma OptionalUnwrapped(g: Graph, t: ObjId)
    requires IsClass(g, t)
    ensures ReturnAnnotation(g, UnionHint([TypeHint(g.noneType), TypeHint(t)])) == Some(t)
    ensures ReturnAnnotation(g, UnionHint([TypeHint(t), TypeHint(g.noneType)])) == Some(t)
  {
  }

  /** A union is unwrapped once only, and only when it has two arms. */
  lemma UnionUnwrappedOnce(g: Graph, h: Hint)
    requires h.UnionHint?
    ensures |h.args| != 2 ==> ReturnAnnotation(g, h).None?
    ensures |h.args| == 2 && h.args[0] == TypeHint(g.noneType) && h.args[1].UnionHint? ==> ReturnAnnotation(g, h).None?
    ensures |h.args| == 2 && TypeHint(g.noneType) !in h.args ==> ReturnAnnotation(g, h).None?
  {
    if |h.args| == 2 && TypeHint(g.noneType) !in h.args {
      assert h.args[0] != TypeHint(g.noneType) && h.args[1] != TypeHint(g.noneType);
    }
  }

  /** Calling something that is neither a class nor callable nor a routine fails with an empty message. */
  lemma NotCallable(g: Graph, c: CursorState)
    requires Valid(g) && c.value in g.objs
    requires g.objs[c.value].kind == ModuleKind || g.objs[c.value].kind == OtherKind
    ensures CallValueOf(g, c) == Err("")
  {
  }

  /** Calling a routine whose return annotation cannot be followed names the routine in the message. */
  lemma UnfollowableRoutine(g: Graph, c: CursorState)
    requires Valid(g) && IsRoutine(g, c.value) && ReturnAnnotation(g, g.objs[c.value].returnHint).None?
    ensures CallValueOf(g, c) == Err("Unable to follow return annotation of " + DebugName(g, c.value) + ".")
  {
  }

  // ---------------------------------------------------------------------
  // The fallback recursion as written
  // ---------------------------------------------------------------------

  /** When the as-written walk finishes, the walk with one fallback per component gives the same result. */
  lemma {:induction false} AsWrittenAgrees(g: Graph, inv: set<string>, c: CursorState, comps: seq<string>, fuel: nat)
    requires Valid(g) && c.value in g.objs
    requires LocateTypeAsWritten(g, inv, c, comps, fuel).Some?
    ensures LocateTypeOf(g, inv, c, comps, false) == LocateTypeAsWritten(g, inv, c, comps, fuel).value
    decreases fuel, |comps|, 1
  {
    if comps != [] {
      var s := Step(g, inv, c, comps[0]);
      if s.Ok? {
        if Fallback(g, inv, c, s.value, comps[0]).Some? {
          RestartAgrees(g, inv, c, comps, fuel);
        } else {
          StepAgrees(g, inv, c, comps, fuel);
        }
      }
    }
  }

  /** The fallback applies: both walks restart from the documented base. */
  lemma {:induction false} RestartAgrees(g: Graph, inv: set<string>, c: CursorState, comps: seq<string>, fuel: nat)
    requires Valid(g) && c.value in g.objs && comps != [] && Step(g, inv, c, comps[0]).Ok?
    requires Fallback(g, inv, c, Step(g, inv, c, comps[0]).value, comps[0]).Some?
    requires LocateTypeAsWritten(g, inv, c, comps, fuel).Some?
    ensures LocateTypeOf(g, inv, c, comps, false) == LocateTypeAsWritten(g, inv, c, comps, fuel).value
    decreases fuel, |comps|, 0
  {
    var s := Step(g, inv, c, comps[0]);
    var base := Fallback(g, inv, c, s.value, comps[0]);
    var c1 := c.(location := base.value);
    assert fuel > 0 && LocateTypeAsWritten(g, inv, c, comps, fuel) == LocateTypeAsWritten(g, inv, c1, comps, fuel - 1);
    assert LocateTypeOf(g, inv, c, comps, false) == LocateTypeOf(g, inv, c1, comps, true);
    RetriedAgrees(g, inv, c1, comps, fuel - 1, base.value);
  }

  /** The fallback does not apply: both walks go on from the attribute. */
  lemma {:induction false} StepAgrees(g: Graph, inv: set<string>, c: CursorState, comps: seq<string>, fuel: nat)
    requires Valid(g) && c.value in g.objs && comps != [] && Step(g, inv, c, comps[0]).Ok?
    requires Fallback(g, inv, c, Step(g, inv, c, comps[0]).value, comps[0]).None?
    requires LocateTypeAsWritten(g, inv, c, comps, fuel).Some?
    ensures LocateTypeOf(g, inv, c, comps, false) == LocateTypeAsWritten(g, inv, c, comps, fuel).value
    decreases fuel, |comps|, 0
  {
    var s := Step(g, inv, c, comps[0]);
    assert LocateTypeAsWritten(g, inv, c, comps, fuel) == LocateTypeAsWritten(g, inv, s.value, comps[1..], fuel);
    assert LocateTypeOf(g, inv, c, comps, false) == LocateTypeOf(g, inv, s.value, comps[1..], false);
    AsWrittenAgrees(g, inv, s.value, comps[1..], fuel);
  }

  /** After a restart, the as-written walk either finishes the same way as the walk that does not fall back again, or recurses forever. */
  lemma {:induction false} RetriedAgrees(g: Graph, inv: set<string>, c1: CursorState, comps: seq<string>, fuel: nat, base: string)
    requires Valid(g) && c1.value in g.objs && comps != [] && c1.location == base
    requires Step(g, inv, c1, comps[0]).Ok? ==> Fallback(g, inv, c1, Step(g, inv, c1, comps[0]).value, comps[0]).Some? ==>
      Fallback(g, inv, c1, Step(g, inv, c1, comps[0]).value, comps[0]) == Some(base)
    requires LocateTypeAsWritten(g, inv, c1, comps, fuel).Some?
    ensures LocateTypeOf(g, inv, c1, comps, true) == LocateTypeAsWritten(g, inv, c1, comps, fuel).value
    decreases fuel
  {
    var s := Step(g, inv, c1, comps[0]);
    if s.Ok? {
      var b := Fallback(g, inv, c1, s.value, comps[0]);
      if b.Some? {
        assert c1.(location := b.value) == c1;
        RetriedAgrees(g, inv, c1, comps, fuel - 1, base);
      } else {
        AsWrittenAgrees(g, inv, s.value, comps[1..], fuel);
      }
    }
  }

  /** The object graph of the recursion: module `m` holds class `C`, whose attribute `D` is the class `n.D`; only `m.C.D` is documented. */
  const LoopObjs: map<ObjId, Obj> := map[
    0 := Obj(ModuleKind, map["C" := 1], Some("m"), None, "<module 'm'>", [], NoHint),
    1 := Obj(ClassKind, map["D" := 2, "__call__" := 3], Some("m"), Some("C"), "<class 'm.C'>", [1], NoHint),
    2 := Obj(ClassKind, map["__call__" := 3], Some("n"), Some("D"), "<class 'n.D'>", [2], NoHint),
    3 := Obj(RoutineKind, map[], None, None, "<slot wrapper '__call__'>", [], NoHint)]

  lemma LoopObjsValid()
    ensures Valid(Graph(LoopObjs, map["m" := 0], -1))
  {
    var g := Graph(LoopObjs, map["m" := 0], -1);
    assert LoopObjs.Keys == {0, 1, 2, 3};
    forall o | o in g.objs
      ensures var ob := g.objs[o];
        && (forall a :: a in ob.attrs ==> ob.attrs[a] in g.objs)
        && (forall i :: 0 <= i < |ob.mro| ==> IsClass(g, ob.mro[i]))
        && HintIn(g.objs, ob.returnHint)
        && (ob.kind == ClassKind ==> ob.moduleName.Some? && ob.qualname.Some?)
        && (ob.kind == ClassKind || ob.kind == CallableKind ==> "__call__" in ob.attrs)
    {
      if o == 1 {
        assert g.objs[o].attrs.Keys == {"D", "__call__"};
      } else if o == 2 {
        assert g.objs[o].attrs.Keys == {"__call__"};
      }
    }
  }

  /** The graph of those objects, with `m` importable. */
  function LoopGraph(): (g: Graph)
    ensures Valid(g)
  {
    LoopObjsValid();
    Graph(LoopObjs, map["m" := 0], -1)
  }

  const LoopInventory: set<string> := {"m.C.D"}

  /** The one step of the loop: from `m.C`, the attribute `D` is the class `n.D`, undocumented, and `m.C` documents `D`. */
  lemma LoopStep()
    ensures Step(LoopGraph(), LoopInventory, CursorState("m.C", 1, false), "D") == Ok(CursorState("n.D", 2, false))
    ensures Fallback(LoopGraph(), LoopInventory, CursorState("m.C", 1, false), CursorState("n.D", 2, false), "D") == Some("m.C")
  {
    var g := LoopGraph();
    assert g.objs[1].attrs["D"] == 2 && IsClass(g, 1) && IsClass(g, 2);
    assert g.objs[1].mro == [1];
    assert Fqn(g, 2) == Some("n" + "." + "D");
    assert "n" + "." + "D" == "n.D";
    assert "m.C" + "." + "D" == "m.C.D";
    assert ClassName(g, 1) == "m" + "." + "C" == "m.C";
    assert "n.D" !in LoopInventory;
    assert DocumentedBase(g, LoopInventory, [1], "D") == Some("m.C");
  }

  lemma {:induction false} LoopOnD(fuel: nat)
    ensures LocateTypeAsWritten(LoopGraph(), LoopInventory, CursorState("m.C", 1, false), ["D"], fuel).None?
  {
    var c := CursorState("m.C", 1, false);
    LoopStep();
    assert c.(location := "m.C") == c;
    if fuel > 0 {
      LoopOnD(fuel - 1);
    }
  }

  /**
   * As written, locating `C.D` from module `m` recurses without end for
   * every recursion limit, while the walk that falls back once per
   * component locates the class `n.D`.
   */
  lemma FallbackRecursesForever(fuel: nat)
    ensures LocateTypeAsWritten(LoopGraph(), LoopInventory, CursorState("m", 0, false), ["C", "D"], fuel).None?
    ensures LocateTypeOf(LoopGraph(), LoopInventory, CursorState("m", 0, false), ["C", "D"], false) == Ok(CursorState("n.D", 2, false))
  {
    var g := LoopGraph();
    var c := CursorState("m", 0, false);
    assert g.objs[0].attrs["C"] == 1 && IsClass(g, 1) && !IsClass(g, 0);
    assert Fqn(g, 1) == Some("m" + "." + "C");
    assert "m" + "." + "C" == "m.C";
    assert Step(g, LoopInventory, c, "C") == Ok(CursorState("m.C", 1, false));
    assert ["C", "D"][1..] == ["D"];
    LoopOnD(fuel);
    LoopStep();
    var c1 := CursorState("m.C", 1, false);
    assert c1.(location := "m.C") == c1;
    assert LocateTypeOf(g, LoopInventory, c1, ["D"], true) == Ok(CursorState("n.D", 2, false)) by {
      assert ["D"][1..] == [];
    }
  }

  // ---------------------------------------------------------------------
  // The cursor object and the loops
  // ---------------------------------------------------------------------

  /** `Cursor`: updated in place by `locate_type` and `call_value`. */
  class Cursor {
    var location: string
    var value: ObjId
    var instance: bool

    function State(): CursorState
      reads this
    {
      CursorState(location, value, instance)
    }

    constructor(location: string, value: ObjId, instance: bool)
      ensures State() == CursorState(location, value, instance)
    {
      this.location := location;
      this.value := value;
      this.instance := instance;
    }

    /** `call_value(cursor)`: on success the cursor holds the called value; on failure the message of `CouldNotResolve`. */
    method CallValue(g: Graph) returns (err: Option<string>)
      requires Valid(g) && value in g.objs
      modifies this
      ensures err.None? ==> CallValueOf(g, old(State())) == Ok(State())
      ensures err.Some? ==> CallValueOf(g, old(State())) == Err(err.value)
    {
      if IsClass(g, value) && !instance {
        instance := true;
        return None;
      }
      if IsCallableInstance(g, value) {
        value := g.objs[value].attrs["__call__"];
      } else if !IsRoutine(g, value) {
        return Some("");
      }
      var t := ReturnAnnotation(g, g.objs[value].returnHint);
      if t.None? {
        return Some("Unable to follow return annotation of " + DebugName(g, value) + ".");
      }
      value := t.value;
      location := ClassName(g, value);
      instance := true;
      return None;
    }
  }

  function StateOf(c: Cursor?): Option<CursorState>
    reads c
  {
    if c == null then None else Some(c.State())
  }

  /** `closest_module`: tries ever longer prefixes until one fails to import. */
  method ClosestModule(g: Graph, comps: seq<string>) returns (r: Result<(ObjId, nat), string>)
    requires |comps| >= 1
    ensures r == ModulePrefix(g, comps)
  {
    if comps[0] !in g.modules {
      return Err("Could not import " + comps[0] + ".");
    }
    assert Join(comps[..1], ".") == comps[0];
    var mod := g.modules[comps[0]];
    for i := 1 to |comps|
      invariant Join(comps[..i], ".") in g.modules && mod == g.modules[Join(comps[..i], ".")]
      invariant FirstFailure(g, comps, i) == FirstFailure(g, comps, 1)
    {
      var prefix := Join(comps[..i + 1], ".");
      if prefix !in g.modules {
        return Ok((mod, i));
      }
      mod := g.modules[prefix];
    }
    return Ok((mod, |comps|));
  }

  /** `make_cursor` */
  method MakeCursor(g: Graph, comps: seq<string>) returns (r: Result<(seq<string>, Cursor), string>)
    requires Valid(g) && |comps| >= 1
    ensures r.Ok? ==> fresh(r.value.1) && MakeCursorOf(g, comps) == Ok((r.value.0, r.value.1.State()))
    ensures r.Err? ==> MakeCursorOf(g, comps) == Err(r.error)
  {
    var found := ClosestModule(g, comps);
    if found.Err? {
      return Err(found.error);
    }
    var (mod, index) := found.value;
    var c := new Cursor(Join(comps[..index], "."), mod, false);
    return Ok((comps[index..], c));
  }

  /** The loop over `__mro__` in `locate_type`. */
  method FindDocumentedBase(g: Graph, inv: set<string>, mro: seq<ObjId>, comp: string) returns (r: Option<string>)
    requires Valid(g) && forall i :: 0 <= i < |mro| ==> IsClass(g, mro[i])
    ensures r == DocumentedBase(g, inv, mro, comp)
  {
    for i := 0 to |mro|
      invariant DocumentedBase(g, inv, mro[i..], comp) == DocumentedBase(g, inv, mro, comp)
    {
      assert mro[i..][1..] == mro[i + 1..];
      var name := ClassName(g, mro[i]);
      if name + "." + comp in inv {
        return Some(name);
      }
    }
    assert mro[|mro|..] == [];
    return None;
  }

  lemma LocateRestarts(g: Graph, inv: set<string>, c: CursorState, comps: seq<string>, retried: bool, next: CursorState, base: string)
    requires Valid(g) && c.value in g.objs && comps != [] && Step(g, inv, c, comps[0]) == Ok(next)
    requires !retried && Fallback(g, inv, c, next, comps[0]) == Some(base)
    ensures LocateTypeOf(g, inv, c, comps, retried) == LocateTypeOf(g, inv, c.(location := base), comps, true)
  {
  }

  lemma LocateAdvances(g: Graph, inv: set<string>, c: CursorState, comps: seq<string>, retried: bool, next: CursorState)
    requires Valid(g) && c.value in g.objs && comps != [] && Step(g, inv, c, comps[0]) == Ok(next)
    requires retried || Fallback(g, inv, c, next, comps[0]).None?
    ensures LocateTypeOf(g, inv, c, comps, retried) == LocateTypeOf(g, inv, next, comps[1..], false)
  {
  }

  /** The loop body of `locate_type` up to the fallback: a new cursor on the attribute, or the error when it does not exist. */
  method AttributeCursor(g: Graph, inv: set<string>, previous: Cursor, comp: string) returns (r: Result<Cursor, string>)
    requires Valid(g) && previous.value in g.objs
    ensures r.Ok? ==> fresh(r.value) && Step(g, inv, previous.State(), comp) == Ok(r.value.State())
    ensures r.Err? ==> Step(g, inv, previous.State(), comp) == Err(r.error)
  {
    var location := previous.location + "." + comp;
    var attrs := g.objs[previous.value].attrs;
    if comp !in attrs {
      return Err(location + " does not exist.");
    }
    var cursor := new Cursor(location, attrs[comp], previous.instance);
    if IsClass(g, cursor.value) {
      cursor.instance := false;
    }
    if IsClass(g, cursor.value) || (IsRoutine(g, cursor.value) && cursor.location !in inv) {
      var name := Fqn(g, cursor.value);
      if name.Some? {
        cursor.location := name.value;
      }
    }
    return Ok(cursor);
  }

  /**
   * `locate_type`: a new cursor per component; the base-class fallback
   * sets the location of the previous cursor (the caller's own, for the
   * first component) and walks on from there.
   */
  method LocateType(g: Graph, inv: set<string>, start: Cursor, comps: seq<string>) returns (r: Result<Cursor, string>)
    requires Valid(g) && start.value in g.objs
    modifies start
    ensures r.Ok? ==> (r.value == start || fresh(r.value)) && LocateTypeOf(g, inv, old(start.State()), comps, false) == Ok(r.value.State())
    ensures r.Err? ==> LocateTypeOf(g, inv, old(start.State()), comps, false) == Err(r.error)
  {
    var previous := start;
    var cursor := start;
    var i := 0;
    var retried := false;
    while i < |comps|
      invariant 0 <= i <= |comps|
      invariant previous == start || fresh(previous)
      invariant cursor == previous && previous.value in g.objs
      invariant LocateTypeOf(g, inv, previous.State(), comps[i..], retried) == LocateTypeOf(g, inv, old(start.State()), comps, false)
      decreases |comps| - i, if retried then 0 else 1
    {
      var comp := comps[i];
      var next := AttributeCursor(g, inv, cursor, comp);
      if next.Err? {
        return Err(next.error);
      }
      cursor := next.value;
      var base: Option<string> := None;
      if !retried && IsClass(g, previous.value) && cursor.location !in inv {
        base := FindDocumentedBase(g, inv, g.objs[previous.value].mro, comp);
      }
      if base.Some? {
        LocateRestarts(g, inv, previous.State(), comps[i..], retried, cursor.State(), base.value);
        previous.location := base.value;
        cursor := previous;
        retried := true;
      } else {
        LocateAdvances(g, inv, previous.State(), comps[i..], retried, cursor.State());
        assert comps[i..][1..] == comps[i + 1..];
        previous := cursor;
        retried := false;
        i := i + 1;
      }
    }
    return Ok(cursor);
  }

  /** One call marker of `resolve_location`: make the cursor if there is none yet, locate the type, then call it. */
  method CallStep(g: Graph, inv: set<string>, ghost rest: seq<string>, cursor: Cursor?, comps: seq<string>) returns (r: Result<Cursor, string>)
    requires Valid(g) && |rest| >= 1 && rest[0] == Parse.CallMarker
    requires cursor != null ==> cursor.value in g.objs
    requires cursor == null ==> |comps| >= 1
    modifies cursor
    ensures r.Ok? ==> (r.value == cursor || fresh(r.value)) && r.value.value in g.objs
    ensures r.Ok? ==> Walk(g, inv, rest, comps, old(StateOf(cursor))) == Walk(g, inv, rest[1..], [], Some(r.value.State()))
    ensures r.Err? ==> Walk(g, inv, rest, comps, old(StateOf(cursor))) == Err(r.error)
  {
    var start, buf := cursor, comps;
    if start == null {
      var made := MakeCursor(g, comps);
      if made.Err? {
        return Err(made.error);
      }
      buf, start := made.value.0, made.value.1;
    }
    var located := LocateType(g, inv, start, buf);
    if located.Err? {
      return Err(located.error);
    }
    var err := located.value.CallValue(g);
    if err.Some? {
      return Err(err.value);
    }
    r := Ok(located.value);
  }

  /** The end of `resolve_location`: make the cursor if there is none yet, then locate the type and return its location. */
  method Finish(g: Graph, inv: set<string>, cursor: Cursor?, comps: seq<string>) returns (r: Result<string, string>)
    requires Valid(g)
    requires cursor != null ==> cursor.value in g.objs
    requires cursor == null ==> |comps| >= 1
    modifies cursor
    ensures r == Walk(g, inv, [], comps, old(StateOf(cursor)))
  {
    var start, buf := cursor, comps;
    if start == null {
      var made := MakeCursor(g, comps);
      if made.Err? {
        return Ok(Join(comps, "."));
      }
      buf, start := made.value.0, made.value.1;
    }
    var located := LocateType(g, inv, start, buf);
    if located.Err? {
      return Err(located.error);
    }
    return Ok(located.value.location);
  }

  /** `resolve_location(name, inventory)` */
  method ResolveLocation(g: Graph, inv: set<string>, name: Parse.Name) returns (r: Result<string, string>)
    requires Valid(g) && Chain(name.importComponents)
    ensures r == Resolved(g, inv, name.importComponents)
  {
    var chain := name.importComponents;
    var comps: seq<string> := [];
    var cursor: Cursor? := null;
    for i := 0 to |chain|
      invariant cursor != null ==> fresh(cursor) && cursor.value in g.objs
      invariant cursor == null ==> comps == chain[..i]
      invariant Walk(g, inv, chain[i..], comps, StateOf(cursor)) == Walk(g, inv, chain, [], None)
    {
      var comp := chain[i];
      assert chain[i..][0] == comp && chain[i..][1..] == chain[i + 1..];
      if comp != Parse.CallMarker {
        comps := comps + [comp];
      } else {
        var next := CallStep(g, inv, chain[i..], cursor, comps);
        if next.Err? {
          return Err(next.error);
        }
        cursor := next.value;
        comps := [];
      }
    }
    assert chain[|chain|..] == [];
    r := Finish(g, inv, cursor, comps);
  }
}
