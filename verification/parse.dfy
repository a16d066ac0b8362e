/**
 * Name-access chains (`sphinx_codeautolink/parse.py`): components, accesses
 * and the names they turn into.
 *
 * An access is a chain of components read off one expression (`a.b().c`),
 * together with the components its base name was bound to (`prior`) and, for
 * the later pieces of a split chain, the components that came before the
 * piece on the same line (`hidden`).
 */
module Parse {
  import opened Wrappers
  import Text

  /** `ast.Load`, `ast.Store`, `ast.Del`, and the `"none"` context that builtin components carry. */
  datatype Ctx = Load | Store | Del | NoCtx

  /** `NameBreak.call`: the component name that stands for a call in a chain. */
  const CallMarker: string := "()"

  datatype Component = Component(name: string, lineno: int, endLineno: int, context: Ctx)

  datatype LinkContext = NoneContext | AfterCall | ImportFrom | ImportTarget

  /** A name accessed in a code block, traced back to an import. */
  datatype Name = Name(
    importComponents: seq<string>,
    codeStr: string,
    lineno: int,
    endLineno: int,
    context: LinkContext,
    resolvedLocation: Option<string>)

  datatype Access = Access(
    context: LinkContext,
    prior: seq<Component>,
    components: seq<Component>,
    hidden: seq<Component>)

  function Names(cs: seq<Component>): (r: seq<string>)
    ensures |r| == |cs|
    ensures forall i :: 0 <= i < |cs| ==> r[i] == cs[i].name
  {
    seq(|cs|, i requires 0 <= i < |cs| => cs[i].name)
  }

  /**
   * All components from the import base to the used ones. An access with
   * prior components drops exactly one component, the base that bridged the
   * bound name to the chain on the line.
   */
  function FullComponents(a: Access): (r: seq<Component>)
    ensures a.prior == [] ==> r == a.hidden + a.components
    ensures a.prior != [] && a.hidden + a.components != [] ==>
      r == a.prior + (a.hidden + a.components)[1..]
    ensures a.prior != [] && a.hidden + a.components == [] ==> r == a.prior
  {
    if a.prior == [] then a.hidden + a.components
    else if a.hidden != [] then a.prior + (a.hidden[1..] + a.components)
    else if a.components != [] then a.prior + a.components[1..]
    else a.prior
  }

  /** Index just after the last call marker of `cs`, or 0 when `cs` holds none. */
  function TailStart(cs: seq<Component>): (k: nat)
    ensures k <= |cs|
    ensures k > 0 ==> cs[k - 1].name == CallMarker
    ensures forall j :: k <= j < |cs| ==> cs[j].name != CallMarker
  {
    if |cs| == 0 then 0
    else if cs[|cs| - 1].name == CallMarker then |cs|
    else TailStart(cs[..|cs| - 1])
  }

  /** The source text of the access: its components after the last call, joined by dots. */
  function CodeStr(a: Access): (r: string)
    ensures (forall i :: 0 <= i < |a.components| ==> a.components[i].name != CallMarker) ==> r == Text.Join(Names(a.components), ".")
    ensures |a.components| >= 1 && a.components[|a.components| - 1].name == CallMarker ==> r == ""
  {
    var k := TailStart(a.components);
    assert a.components[0..] == a.components;
    Text.Join(Names(a.components[k..]), ".")
  }

  function MinLineno(cs: seq<Component>): (m: int)
    requires |cs| >= 1
    ensures exists i :: 0 <= i < |cs| && m == cs[i].lineno
    ensures forall i :: 0 <= i < |cs| ==> m <= cs[i].lineno
  {
    if |cs| == 1 then cs[0].lineno
    else
      var rest := MinLineno(cs[1..]);
      if cs[0].lineno <= rest then cs[0].lineno else rest
  }

  function MaxEndLineno(cs: seq<Component>): (m: int)
    requires |cs| >= 1
    ensures exists i :: 0 <= i < |cs| && m == cs[i].endLineno
    ensures forall i :: 0 <= i < |cs| ==> cs[i].endLineno <= m
  {
    if |cs| == 1 then cs[0].endLineno
    else
      var rest := MaxEndLineno(cs[1..]);
      if cs[0].endLineno >= rest then cs[0].endLineno else rest
  }

  /** `Access.to_name`: the import path, the code string and the line span of the components. */
  function ToName(a: Access): (n: Name)
    requires |a.components| >= 1
    ensures n.importComponents == Names(FullComponents(a))
    ensures n.lineno <= n.endLineno || exists i :: 0 <= i < |a.components| && a.components[i].endLineno < a.components[i].lineno
    ensures n.context == a.context && n.resolvedLocation == None
  {
    Name(Names(FullComponents(a)), CodeStr(a), MinLineno(a.components), MaxEndLineno(a.components), a.context, None)
  }

  /** Position of the first call marker at an index of at least 1, or `|cs|` when there is none. */
  function NextBreak(cs: seq<Component>, from: nat): (i: nat)
    requires 1 <= from <= |cs|
    ensures from <= i <= |cs|
    ensures i < |cs| ==> cs[i].name == CallMarker
    ensures forall j :: from <= j < i ==> cs[j].name != CallMarker
    decreases |cs| - from
  {
    if from == |cs| || cs[from].name == CallMarker then from else NextBreak(cs, from + 1)
  }

  /**
   * The pieces of an access before the trailing call is dropped: the chain is
   * cut before every call marker that is not its first component, and every
   * later piece remembers the components before it as hidden components.
   */
  function Pieces(x: Access): (ps: seq<Access>)
    requires |x.components| >= 1
    ensures |ps| >= 1
    decreases |x.components|
  {
    var i := NextBreak(x.components, 1);
    if i == |x.components| then [x]
    else [x.(components := x.components[..i])] + Pieces(Rest(x, i))
  }

  /** The access that starts at the call marker at index `i` of `x`. */
  function Rest(x: Access, i: nat): (y: Access)
    requires 1 <= i < |x.components|
    ensures |y.components| == |x.components| - i
  {
    Access(AfterCall, x.prior, x.components[i..], x.hidden + x.components[..i])
  }

  lemma PiecesUnfold(x: Access)
    requires |x.components| >= 1
    ensures var i := NextBreak(x.components, 1);
      && (i == |x.components| ==> Pieces(x) == [x])
      && (i < |x.components| ==> Pieces(x) == [x.(components := x.components[..i])] + Pieces(Rest(x, i)))
  {
  }

  /** Every piece is non-empty, and the last piece ends where the access ends. */
  lemma {:induction false} PiecesNonEmpty(x: Access)
    requires |x.components| >= 1
    ensures forall k :: 0 <= k < |Pieces(x)| ==> |Pieces(x)[k].components| >= 1
    ensures Last(Last(Pieces(x)).components) == Last(x.components)
    decreases |x.components|
  {
    var i := NextBreak(x.components, 1);
    PiecesUnfold(x);
    if i < |x.components| {
      PiecesNonEmpty(Rest(x, i));
      forall k | 1 <= k < |Pieces(x)| ensures |Pieces(x)[k].components| >= 1 {
        assert Pieces(x)[k] == Pieces(Rest(x, i))[k - 1];
      }
    }
  }

  function Last<T>(s: seq<T>): T
    requires |s| >= 1
  {
    s[|s| - 1]
  }

  /** The accesses `Access.split` turns `a` into: the pieces, without a last piece that ends in a call. */
  function SplitAccesses(a: Access): (ps: seq<Access>)
    requires |a.components| >= 1
    ensures forall k :: 0 <= k < |ps| ==> |ps[k].components| >= 1
  {
    PiecesNonEmpty(a);
    var ps := Pieces(a);
    if Last(Last(ps).components).name == CallMarker then ps[..|ps| - 1] else ps
  }

  function SplitNames(a: Access): (ns: seq<Name>)
    requires |a.components| >= 1
    ensures |ns| == |SplitAccesses(a)|
  {
    var ps := SplitAccesses(a);
    seq(|ps|, k requires 0 <= k < |ps| => ToName(ps[k]))
  }

  /** `Access.split`: cuts the chain at its calls and converts each piece to a name. */
  method Split(a: Access) returns (names: seq<Name>)
    requires |a.components| >= 1
    ensures names == SplitNames(a)
  {
    // `done` holds every item but the last, `current` the last one
    var done: seq<Access> := [];
    var current := a;
    while true
      invariant |current.components| >= 1
      invariant Pieces(a) == done + Pieces(current)
      decreases |current.components|
    {
      var i := 1;
      while i < |current.components| && current.components[i].name != CallMarker
        invariant 1 <= i <= |current.components|
        invariant forall j :: 1 <= j < i ==> current.components[j].name != CallMarker
      {
        i := i + 1;
      }
      PiecesUnfold(current);
      assert i == NextBreak(current.components, 1);
      if i == |current.components| {
        break;
      }
      var hidden := current.hidden + current.components[..i];
      var next := Access(AfterCall, current.prior, current.components[i..], hidden);
      assert next == Rest(current, i);
      done := done + [current.(components := current.components[..i])];
      current := next;
    }
    var items := done + [current];
    assert items == Pieces(a);
    PiecesNonEmpty(a);
    if Last(Last(items).components).name == CallMarker {
      items := items[..|items| - 1];
    }
    names := seq(|items|, k requires 0 <= k < |items| => ToName(items[k]));
  }

  // ---------------------------------------------------------------------
  // Properties of splitting

  /** Components of a sequence of accesses, end to end. */
  function Flatten(ps: seq<Access>): seq<Component>
  {
    if |ps| == 0 then [] else ps[0].components + Flatten(ps[1..])
  }

  /** Number of call markers among `cs`. */
  function CountCalls(cs: seq<Component>): nat
  {
    if |cs| == 0 then 0 else (if cs[0].name == CallMarker then 1 else 0) + CountCalls(cs[1..])
  }

  lemma {:induction false} CountCallsAppend(a: seq<Component>, b: seq<Component>)
    ensures CountCalls(a + b) == CountCalls(a) + CountCalls(b)
  {
    if |a| > 0 {
      assert (a + b)[1..] == a[1..] + b;
      CountCallsAppend(a[1..], b);
    } else {
      assert a + b == b;
    }
  }

  lemma {:induction false} CountCallsNone(cs: seq<Component>, lo: nat, hi: nat)
    requires lo <= hi <= |cs|
    requires forall j :: lo <= j < hi ==> cs[j].name != CallMarker
    ensures CountCalls(cs[lo..hi]) == 0
    decreases hi - lo
  {
    if lo < hi {
      CountCallsNone(cs, lo + 1, hi);
      assert cs[lo..hi][1..] == cs[lo + 1..hi];
    }
  }

  lemma CountCallsSplit(cs: seq<Component>, lo: nat, mid: nat, hi: nat)
    requires lo <= mid <= hi <= |cs|
    ensures CountCalls(cs[lo..hi]) == CountCalls(cs[lo..mid]) + CountCalls(cs[mid..hi])
  {
    assert cs[lo..hi] == cs[lo..mid] + cs[mid..hi];
    CountCallsAppend(cs[lo..mid], cs[mid..hi]);
  }

  /** One piece per call marker past the first component, plus one. */
  lemma {:induction false} PiecesCount(x: Access)
    requires |x.components| >= 1
    ensures |Pieces(x)| == CountCalls(x.components[1..]) + 1
    decreases |x.components|
  {
    var cs := x.components;
    var i := NextBreak(cs, 1);
    PiecesUnfold(x);
    CountCallsNone(cs, 1, i);
    assert cs[1..] == cs[1..|cs|];
    if i < |cs| {
      var y := Rest(x, i);
      PiecesCount(y);
      CountCallsSplit(cs, 1, i, |cs|);
      CountCallsSplit(cs, i, i + 1, |cs|);
      assert y.components[1..] == cs[i + 1..|cs|];
      assert cs[i..i + 1] == [cs[i]];
    }
  }

  /** The pieces cover the chain exactly, in order, all sharing its prior components. */
  lemma {:induction false} PiecesCover(x: Access)
    requires |x.components| >= 1
    ensures Flatten(Pieces(x)) == x.components
    ensures forall k :: 0 <= k < |Pieces(x)| ==> Pieces(x)[k].prior == x.prior
    decreases |x.components|
  {
    var cs := x.components;
    var i := NextBreak(cs, 1);
    PiecesUnfold(x);
    if i < |cs| {
      var y := Rest(x, i);
      PiecesCover(y);
      var ps := Pieces(x);
      assert ps[0].components == cs[..i] && ps[1..] == Pieces(y);
      assert Flatten(ps) == ps[0].components + Flatten(ps[1..]);
      assert cs[..i] + cs[i..] == cs;
      forall k | 1 <= k < |ps| ensures ps[k].prior == x.prior {
        PiecesLater(x, k);
      }
    } else {
      assert Flatten(Pieces(x)) == cs + Flatten([]);
    }
  }

  /** The first piece keeps the access's context and hidden components; every later one is `after_call`. */
  lemma {:induction false} PiecesContext(x: Access)
    requires |x.components| >= 1
    ensures Pieces(x)[0].context == x.context && Pieces(x)[0].hidden == x.hidden
    ensures forall k :: 1 <= k < |Pieces(x)| ==> Pieces(x)[k].context == AfterCall
    decreases |x.components|
  {
    var cs := x.components;
    var i := NextBreak(cs, 1);
    PiecesUnfold(x);
    if i < |cs| {
      var y := Rest(x, i);
      PiecesContext(y);
      forall k | 1 <= k < |Pieces(x)| ensures Pieces(x)[k].context == AfterCall {
        assert Pieces(x)[k] == Pieces(y)[k - 1];
      }
    }
  }

  /** Every piece's hidden components are the access's hidden components followed by all earlier pieces. */
  lemma {:induction false} PiecesHidden(x: Access)
    requires |x.components| >= 1
    ensures forall k :: 0 <= k < |Pieces(x)| ==> Pieces(x)[k].hidden == x.hidden + Flatten(Pieces(x)[..k])
    decreases |x.components|
  {
    var cs := x.components;
    var i := NextBreak(cs, 1);
    PiecesUnfold(x);
    var ps := Pieces(x);
    assert Flatten(ps[..0]) == [];
    if i < |cs| {
      PiecesHidden(Rest(x, i));
      forall k | 1 <= k < |ps|
        ensures ps[k].hidden == x.hidden + Flatten(ps[..k])
      {
        PiecesLater(x, k);
      }
    }
  }

  /** A later piece of `x` is a piece of the rest after the first cut, and the pieces before it flatten to the first piece followed by those of the rest. */
  lemma PiecesLater(x: Access, k: nat)
    requires |x.components| >= 1 && NextBreak(x.components, 1) < |x.components|
    requires 1 <= k < |Pieces(x)|
    ensures var i := NextBreak(x.components, 1);
      var qs := Pieces(Rest(x, i));
      && Pieces(x)[k] == qs[k - 1]
      && Flatten(Pieces(x)[..k]) == x.components[..i] + Flatten(qs[..k - 1])
  {
    var i := NextBreak(x.components, 1);
    PiecesUnfold(x);
    var ps := Pieces(x);
    var qs := Pieces(Rest(x, i));
    assert ps == [x.(components := x.components[..i])] + qs;
    var front := ps[..k];
    assert front[0].components == x.components[..i];
    assert front[1..] == qs[..k - 1];
    assert Flatten(front) == front[0].components + Flatten(front[1..]);
  }

  /** `split` yields one name per call marker past the first component, plus one, minus one if the chain ends in a call. */
  lemma SplitCount(a: Access)
    requires |a.components| >= 1
    ensures |SplitNames(a)| ==
      CountCalls(a.components[1..]) + 1 - (if Last(a.components).name == CallMarker then 1 else 0)
  {
    PiecesCount(a);
    PiecesNonEmpty(a);
  }

  lemma {:induction false} FlattenSplit(ps: seq<Access>, n: nat)
    requires n <= |ps|
    ensures Flatten(ps) == Flatten(ps[..n]) + Flatten(ps[n..])
    decreases n
  {
    if n > 0 {
      FlattenSplit(ps[1..], n - 1);
      assert ps[1..][..n - 1] == ps[..n][1..];
      assert ps[1..][n - 1..] == ps[n..];
    } else {
      assert ps[..0] == [];
      assert ps[0..] == ps;
    }
  }

  /** When the pieces of a chain ending in a call are several, the last piece is that call alone. */
  lemma {:induction false} PiecesLastIsMarker(x: Access)
    requires |x.components| >= 1
    requires Last(x.components).name == CallMarker
    ensures |Pieces(x)| == 1 ==> |x.components| == 1
    ensures |Pieces(x)| >= 2 ==> Last(Pieces(x)).components == [Last(x.components)]
    decreases |x.components|
  {
    var cs := x.components;
    var i := NextBreak(cs, 1);
    PiecesUnfold(x);
    if i < |cs| {
      PiecesLastIsMarker(Rest(x, i));
      assert Last(Pieces(x)) == Last(Pieces(Rest(x, i)));
    }
  }

  /** Dropping a trailing call piece leaves exactly the chain without its final call. */
  lemma SplitCoverCall(a: Access)
    requires |a.components| >= 1 && Last(a.components).name == CallMarker
    ensures Flatten(SplitAccesses(a)) + [Last(a.components)] == a.components
  {
    var ps := Pieces(a);
    var n := |ps| - 1;
    PiecesNonEmpty(a);
    PiecesLastIsMarker(a);
    assert Last(Last(ps).components).name == CallMarker;
    assert SplitAccesses(a) == ps[..n];
    var front := Flatten(ps[..n]);
    if n == 0 {
      assert ps[..n] == [] && front == [];
      assert a.components == [Last(a.components)];
    } else {
      PiecesCover(a);
      FlattenSplit(ps, n);
      assert ps[n..] == [ps[n]];
      assert Flatten(ps[n..]) == ps[n].components + Flatten([]) == [Last(a.components)];
      assert a.components == front + [Last(a.components)];
    }
  }

  /** The split accesses are the first pieces. */
  lemma SplitPrefix(a: Access)
    requires |a.components| >= 1
    ensures |SplitAccesses(a)| <= |Pieces(a)| && SplitAccesses(a) == Pieces(a)[..|SplitAccesses(a)|]
  {
    PiecesNonEmpty(a);
  }

  /** Every split access shares the access's prior components. */
  lemma SplitPrior(a: Access)
    requires |a.components| >= 1
    ensures forall k :: 0 <= k < |SplitAccesses(a)| ==> SplitAccesses(a)[k].prior == a.prior
  {
    var ps, qs := Pieces(a), SplitAccesses(a);
    SplitPrefix(a);
    PiecesCover(a);
    forall k | 0 <= k < |qs| ensures qs[k].prior == a.prior {
      assert qs[k] == ps[k];
    }
  }

  /** Only the first split access keeps the access's context; the others are `after_call`. */
  lemma SplitContext(a: Access)
    requires |a.components| >= 1
    ensures forall k :: 0 <= k < |SplitAccesses(a)| ==> SplitAccesses(a)[k].context == (if k == 0 then a.context else AfterCall)
  {
    var ps, qs := Pieces(a), SplitAccesses(a);
    SplitPrefix(a);
    PiecesContext(a);
    forall k | 0 <= k < |qs| ensures qs[k].context == (if k == 0 then a.context else AfterCall) {
      assert qs[k] == ps[k];
    }
  }

  /** Every split access hides the access's hidden components and all split accesses before it. */
  lemma SplitHidden(a: Access)
    requires |a.components| >= 1
    ensures forall k :: 0 <= k < |SplitAccesses(a)| ==> SplitAccesses(a)[k].hidden == a.hidden + Flatten(SplitAccesses(a)[..k])
  {
    var ps, qs := Pieces(a), SplitAccesses(a);
    SplitPrefix(a);
    PiecesHidden(a);
    forall k | 0 <= k < |qs| ensures qs[k].hidden == a.hidden + Flatten(qs[..k]) {
      assert qs[k] == ps[k] && qs[..k] == ps[..k];
    }
  }

  /**
   * The split accesses cover the chain in order (leaving out a trailing call),
   * share its prior components, carry as hidden components everything before
   * them, and only the first keeps the access's context.
   */
  lemma SplitShape(a: Access)
    requires |a.components| >= 1
    ensures var ps := SplitAccesses(a);
      && (Last(a.components).name == CallMarker ==> Flatten(ps) + [Last(a.components)] == a.components)
      && (Last(a.components).name != CallMarker ==> Flatten(ps) == a.components)
      && (forall k :: 0 <= k < |ps| ==> ps[k].prior == a.prior)
      && (forall k :: 0 <= k < |ps| ==> ps[k].context == (if k == 0 then a.context else AfterCall))
      && (forall k :: 0 <= k < |ps| ==> ps[k].hidden == a.hidden + Flatten(ps[..k]))
  {
    SplitPrior(a);
    SplitContext(a);
    SplitHidden(a);
    if Last(a.components).name == CallMarker {
      SplitCoverCall(a);
    } else {
      PiecesNonEmpty(a);
      PiecesCover(a);
      assert SplitAccesses(a) == Pieces(a);
    }
  }
}
