# sphinx-codeautolink, modelled in Dafny

sphinx-codeautolink is a Sphinx extension. It turns the names used in the
Python code blocks of a documentation project into links to the reference
documentation of the objects they denote. It works in four stages, and this
project models each one.

- **Import tracking** (`parse.py`). `ImportTrackerVisitor` walks the syntax
  tree of a block. It keeps a stack of scopes that map bound names to
  component chains, and records a `Name` for every use of a chain whose base
  was imported. `Access.split` cuts a chain like `a.b().c` at its calls.
  - Module `Parse`: components, accesses and splitting.
  - Module `Tracker`: the visitor as functions on its state.
  - Module `TrackerVisitor`: the visitor's state-changing methods as a class.
  - Modules `TrackerProps` and `ScopeProps`: what a statement binds, forgets
    or records.
- **Block analysis** (`extension/block.py`).
  - Module `Block`: `CodeBlockAnalyser` is a class whose methods update the
    concatenation, preface, skip and title state. It records a
    `SourceTransform` for each analysed block, with the block's names shifted
    back to its own lines. It also builds the source listing shown when a
    block fails to parse, and the search pattern for each name.
  - Module `Pycon`: `clean_pycon` and the IPython output filter.
- **Resolution** (`extension/resolve.py`).
  - Module `Resolve`: objects form an abstract graph of modules, classes,
    routines and other values with attributes, MROs and return hints. A name
    resolves by importing its longest module prefix, then walking attributes
    and calls. It falls back to a documented base class.
- **Linking** (`extension/__init__.py`, `extension/backref.py`).
  - Module `Inventory`: the inventory is built from intersphinx and the
    local objects.
  - Module `Extension`: each name is resolved and looked up. It is then
    kept with its location, or dropped with a warning. The kept names are
    grouped by location into code examples.
  - Module `Backref`: builds a sorted table of those examples for each
    `autolink-examples` placeholder.

Inputs from outside the model are parameters:
- the interpreter's builtins and importable modules (`Tracker.Env`);
- the Python parser (a function from source text to names, or a `Node` tree);
- custom block transformers;
- `Path.relative_to`;
- the object graph.

## Model

| member | source | states |
|---|---|---|
| Parse.Names | src/sphinx_codeautolink/parse.py:177 | the import components of a name are the component names, one per component, in order |
| Parse.FullComponents | src/sphinx_codeautolink/parse.py:147-158 | without prior components the full chain is hidden plus visible components; with them, the prior components followed by all hidden and visible components but the first (the bridging base) |
| Parse.TailStart | src/sphinx_codeautolink/parse.py:160-166 | `code_str` starts just after the last call marker: the component before the start is a call and none after it is |
| Parse.CodeStr | src/sphinx_codeautolink/parse.py:160-166 | without call markers, `code_str` is all component names joined by dots; when the last component is a call, it is empty |
| Parse.MinLineno | src/sphinx_codeautolink/parse.py:168-173 | the start line is the least start line among the components, and it is attained |
| Parse.MaxEndLineno | src/sphinx_codeautolink/parse.py:168-173 | the end line is the greatest end line among the components, and it is attained |
| Parse.ToName | src/sphinx_codeautolink/parse.py:175-183 | a name carries the full component names, the access's link context and no resolved location; its span is ordered unless some component's own span is reversed |
| Parse.NextBreak | src/sphinx_codeautolink/parse.py:196-199 | the search of `split` finds the first call marker at or after the position, or the end, and skips only non-call components |
| Parse.Pieces | src/sphinx_codeautolink/parse.py:196-211 | the loop of `split` makes at least one piece |
| Parse.Rest | src/sphinx_codeautolink/parse.py:204-210 | the `after_call` access that continues from a call marker holds exactly the components from the marker on |
| Parse.PiecesUnfold | src/sphinx_codeautolink/parse.py:196-211 | one iteration of the `split` loop: cut before the first call marker past the first component and continue with the rest as an `after_call` access, or stop |
| Parse.Split | src/sphinx_codeautolink/parse.py:185-214 | the loop of `Access.split` yields exactly the names of the split pieces |
| Parse.PiecesNonEmpty | src/sphinx_codeautolink/parse.py:196-211 | every piece has a component, and the last piece ends with the access's last component |
| Parse.PiecesCount | src/sphinx_codeautolink/parse.py:196-211 | the loop makes one piece per call marker past the first component, plus one |
| Parse.PiecesCover | src/sphinx_codeautolink/parse.py:196-211 | the pieces, end to end, are exactly the access's components; every piece keeps the prior components |
| Parse.PiecesContext | src/sphinx_codeautolink/parse.py:196-211 | the first piece keeps the context and hidden components; every later piece is `after_call` |
| Parse.PiecesHidden | src/sphinx_codeautolink/parse.py:196-211 | each piece's hidden components are the access's hidden components followed by all earlier pieces |
| Parse.PiecesLastIsMarker | src/sphinx_codeautolink/parse.py:196-213 | when the chain ends in a call, the last piece is that call alone, or the whole chain is one marker |
| Parse.SplitAccesses | src/sphinx_codeautolink/parse.py:212-213 | no access that `split` returns is empty |
| Parse.SplitNames | src/sphinx_codeautolink/parse.py:185-214 | one name per split access |
| Parse.SplitCount | src/sphinx_codeautolink/parse.py:185-214 | `split` gives one name per call marker past the first component, plus one, less one when the chain ends in a call |
| Parse.SplitCoverCall | src/sphinx_codeautolink/parse.py:212-213 | when the chain ends in a call, the kept pieces followed by that call are the whole chain |
| Parse.SplitPrefix | src/sphinx_codeautolink/parse.py:212-213 | the kept pieces are the loop's pieces, less at most the last |
| Parse.SplitPrior | src/sphinx_codeautolink/parse.py:185-214 | every split access keeps the prior components |
| Parse.SplitContext | src/sphinx_codeautolink/parse.py:185-214 | the first split access keeps the context, the others are `after_call` |
| Parse.SplitHidden | src/sphinx_codeautolink/parse.py:185-214 | every split access hides exactly the components before it |
| Parse.SplitShape | src/sphinx_codeautolink/parse.py:185-214 | the split accesses cover the chain (less a trailing call), share its prior components, and carry the contexts and hidden components above |
| Tracker.BuiltinScope | src/sphinx_codeautolink/parse.py:236-238 | the builtin scope binds exactly the builtin names, each to itself with line -1 and context `none` |
| Tracker.WithTop | src/sphinx_codeautolink/parse.py:294-308 | replacing the innermost scope makes it the given scope |
| Tracker.OverwriteName | src/sphinx_codeautolink/parse.py:294-302 | the name is unbound in the innermost scope and every other binding is unchanged |
| Tracker.AssignName | src/sphinx_codeautolink/parse.py:304-308 | the innermost scope binds the name to the components, everything else unchanged |
| Tracker.SavedAccesses | src/sphinx_codeautolink/parse.py:262-265 | `save_access` records the access whole under `no_split`, else its split pieces; every recorded access has a component |
| Tracker.SaveAccess | src/sphinx_codeautolink/parse.py:262-265 | the scopes are unchanged and the accesses grow by exactly the saved ones |
| Tracker.CreateAccess | src/sphinx_codeautolink/parse.py:310-320 | an unbound key records nothing and yields `None`; a bound key records and yields the access from the key's chain |
| Tracker.ResolvePending | src/sphinx_codeautolink/parse.py:322-334 | resolving a pending chain keeps the visitor frame (lower scopes, outer scopes, flags) and only grows the accesses |
| Tracker.Dispatch | src/sphinx_codeautolink/parse.py:374-382 | dispatching a result keeps the visitor frame |
| Tracker.ResolveAssignment | src/sphinx_codeautolink/parse.py:336-340 | resolving an assignment keeps the visitor frame |
| Tracker.ResolveTargets | src/sphinx_codeautolink/parse.py:342-351 | the targets loop keeps the visitor frame |
| Tracker.ResolveElements | src/sphinx_codeautolink/parse.py:348-351 | the elements loop keeps the visitor frame |
| Tracker.ResolveTarget | src/sphinx_codeautolink/parse.py:353-367 | resolving one target keeps the visitor frame |
| Tracker.CreateSimpleAccess | src/sphinx_codeautolink/parse.py:369-372 | a one-component access changes no scope |
| Tracker.Track | src/sphinx_codeautolink/parse.py:217-233 | dispatching a tracked node's result at the top keeps the visitor frame |
| Tracker.Comps | src/sphinx_codeautolink/parse.py:436-453 | one component per dotted part, in order, with the node's lines and the given context |
| Tracker.RStrip | src/sphinx_codeautolink/parse.py:430 | `str.rstrip`: a prefix of the string, not ending in the character, with only that character cut |
| Tracker.PublicNames | src/sphinx_codeautolink/parse.py:411-413 | exactly the module's names that do not start with `_` |
| Tracker.ImportNames | src/sphinx_codeautolink/parse.py:435-453 | the import loop keeps the visitor frame and logs nothing |
| Tracker.Unaliases | src/sphinx_codeautolink/parse.py:413-414 | a star import binds each public name without an alias |
| Tracker.VisitImport | src/sphinx_codeautolink/parse.py:407-453 | `visit_Import` keeps the visitor frame |
| Tracker.OverwriteAll | src/sphinx_codeautolink/parse.py:455-459 | exactly the listed names are unbound; every other binding is unchanged |
| Tracker.BindFrom | src/sphinx_codeautolink/parse.py:390-394 | binding a name from an outer scope keeps the visitor frame |
| Tracker.GlobalNames | src/sphinx_codeautolink/parse.py:389-394 | the loop of `visit_Global` keeps the visitor frame |
| Tracker.Innermost | src/sphinx_codeautolink/parse.py:401-405 | the innermost scope of the stack that binds the name, with no later scope binding it, or none when no scope does |
| Tracker.NonlocalNames | src/sphinx_codeautolink/parse.py:398-405 | the loop of `visit_Nonlocal` keeps the visitor frame |
| Tracker.Extend | src/sphinx_codeautolink/parse.py:468-474 | appending a component extends a pending chain by exactly that component and leaves no result as none |
| Tracker.Visit | src/sphinx_codeautolink/parse.py:286-292 | visiting any well-formed node keeps the visitor frame |
| Tracker.VisitAttribute | src/sphinx_codeautolink/parse.py:468-474 | `visit_Attribute` keeps the visitor frame |
| Tracker.VisitCall | src/sphinx_codeautolink/parse.py:476-489 | `visit_Call` keeps the visitor frame |
| Tracker.VisitAugAssign | src/sphinx_codeautolink/parse.py:537-542 | `visit_AugAssign` keeps the visitor frame, the augmented-assignment flag included |
| Tracker.VisitNamedExpr | src/sphinx_codeautolink/parse.py:544-549 | `visit_NamedExpr` keeps the visitor frame |
| Tracker.VisitLambda | src/sphinx_codeautolink/parse.py:662-678 | `visit_Lambda` keeps the visitor frame |
| Tracker.VisitClassDef | src/sphinx_codeautolink/parse.py:598-611 | `visit_ClassDef` keeps the visitor frame: the pushed class scope is popped |
| Tracker.VisitComp | src/sphinx_codeautolink/parse.py:680-713 | a comprehension keeps the visitor frame |
| Tracker.VisitFor | src/sphinx_codeautolink/parse.py:585-596 | `visit_For` keeps the visitor frame; what `for x in a.b:` records and forgets is `TrackerProps.ForRecordsIterThenForgets` |
| Tracker.RelativeNames | src/sphinx_codeautolink/parse.py:457-459 | one forgotten name per imported alias |
| Tracker.VisitAll | src/sphinx_codeautolink/parse.py:585-596 | visiting a statement list keeps the visitor frame |
| Tracker.VisitTuple | src/sphinx_codeautolink/parse.py:491-506 | `visit_Tuple` keeps the visitor frame |
| Tracker.VisitStoreElements | src/sphinx_codeautolink/parse.py:493-501 | the element loop of a stored tuple keeps the visitor frame |
| Tracker.VisitTargetsReversed | src/sphinx_codeautolink/parse.py:512-517 | the targets of an assignment are visited last to first, one target list each |
| Tracker.VisitAssign | src/sphinx_codeautolink/parse.py:508-518 | `visit_Assign` keeps the visitor frame |
| Tracker.VisitAnnAssign | src/sphinx_codeautolink/parse.py:520-535 | `visit_AnnAssign` keeps the visitor frame |
| Tracker.AnnotatedValue | src/sphinx_codeautolink/parse.py:526-527 | a pending value is resolved as `resolve_pending_access` does and a missing value changes nothing; any other value keeps the visitor frame (what a walrus binds is `TrackerProps.AnnotatedWalrusBinds`) |
| Tracker.VisitParam | src/sphinx_codeautolink/parse.py:648-660 | `visit_arg` keeps the visitor frame |
| Tracker.VisitParams | src/sphinx_codeautolink/parse.py:636-640 | the parameter loop keeps the visitor frame |
| Tracker.VisitFunctionDef | src/sphinx_codeautolink/parse.py:613-646 | `visit_FunctionDef` keeps the visitor frame |
| Tracker.VisitGenerators | src/sphinx_codeautolink/parse.py:695-700 | the generator clauses keep the visitor frame |
| Tracker.VisitPatterns | src/sphinx_codeautolink/parse.py:557-560 | the positional patterns keep the frame; the collected results are exactly `Captures`: the one-component store chain of each capture or wildcard, in pattern order, nothing for nested class patterns; patterns that are all captures change no state |
| Tracker.PatternResult | src/sphinx_codeautolink/parse.py:580-583 | `visit_MatchAs` returns a one-component store chain named by the capture, or by `None` (`Wildcard`) for `_`; nested class patterns and other patterns return nothing |
| Tracker.Captures | src/sphinx_codeautolink/parse.py:557-560 | the non-empty results of the positional patterns, one per capture or wildcard, in order |
| Tracker.VisitKwdPatterns | src/sphinx_codeautolink/parse.py:562-570 | one assignment per keyword pattern; patterns that are all captures change no state (each assignment is `Tracker.KwdPatternsAssign`) |
| Tracker.KwdTarget | src/sphinx_codeautolink/parse.py:565 | the target of a keyword pattern is the capture's one-component store chain; a wildcard `_` has no target (corrected, see Findings) and so has any non-capture |
| Tracker.KwdValue | src/sphinx_codeautolink/parse.py:566-570 | the value of `attr=p` is the class chain, then a call marker, then `attr` |
| Tracker.KwdPatternsAssign | src/sphinx_codeautolink/parse.py:564-570 | assignment `i` assigns `KwdValue` of the class chain and attribute `i` to `KwdTarget` of pattern `i`, one target list each |
| Tracker.VisitClassArguments | src/sphinx_codeautolink/parse.py:557-578 | visiting the patterns of a class pattern and resolving what they give keeps the visitor frame |
| Tracker.ResolveMatched | src/sphinx_codeautolink/parse.py:572-578 | resolving the captures, then the keyword assignments with splitting off, keeps the visitor frame and restores `no_split` |
| Tracker.ResolveAllPending | src/sphinx_codeautolink/parse.py:572-573 | resolving the collected accesses keeps the visitor frame |
| Tracker.ResolveAllAssignments | src/sphinx_codeautolink/parse.py:575-577 | resolving the keyword assignments keeps the visitor frame |
| Tracker.VisitMatchClass | src/sphinx_codeautolink/parse.py:551-578 | `visit_MatchClass` keeps the visitor frame; what a class pattern records and binds is `TrackerProps.PositionalCaptureForgets`, `TrackerProps.KeywordCaptureBinds` and `TrackerProps.KeywordWildcardBindsNothing` |
| Tracker.ToNames | src/sphinx_codeautolink/parse.py:262-265 | name `i` is `to_name` of recorded access `i`: one name per access, in order |
| Tracker.ParseNames | src/sphinx_codeautolink/parse.py:20-25 | one name per access a new visitor records over the whole module, in order, each with its access's full component names and link context, and no resolved location |
| TrackerProps.VisitKind | src/sphinx_codeautolink/parse.py:463-549 | every visit returns the shape of result the node's type predicts |
| TrackerProps.VisitKindChain | src/sphinx_codeautolink/parse.py:468-489 | an attribute or call returns a chain exactly when its base does |
| TrackerProps.VisitKindAttribute | src/sphinx_codeautolink/parse.py:468-474 | an attribute returns a chain exactly when visiting its value does |
| TrackerProps.VisitKindCall | src/sphinx_codeautolink/parse.py:476-489 | a call returns a chain exactly when visiting its function does |
| TrackerProps.VisitKindCompound | src/sphinx_codeautolink/parse.py:491-549 | tuples, assignments, annotated assignments and walruses return their shape |
| TrackerProps.VisitKindStatement | src/sphinx_codeautolink/parse.py:286-292 | every other node returns nothing |
| TrackerProps.VisitName | src/sphinx_codeautolink/parse.py:463-466 | a name returns its one-component chain, dispatched when at the top |
| TrackerProps.LoadRecordsBoundName | src/sphinx_codeautolink/parse.py:322-334 | loading a bound name records its access and changes no scope; an unbound name records nothing |
| TrackerProps.StoreForgets | src/sphinx_codeautolink/parse.py:326-329 | storing to a name outside an augmented assignment forgets it and records nothing |
| TrackerProps.DelRecordsThenForgets | src/sphinx_codeautolink/parse.py:331-333 | deleting a name records its use when bound, then forgets it |
| TrackerProps.AugAssignUsesAndKeeps | src/sphinx_codeautolink/parse.py:537-542 | `x += v` records `x` as used when bound and keeps its binding; the flag is restored |
| TrackerProps.AssignBindsChain | src/sphinx_codeautolink/parse.py:336-367 | `x = a.b` with `a` bound binds `x` to the full chain of `a.b` and records both uses |
| TrackerProps.VisitAssignUnfold | src/sphinx_codeautolink/parse.py:508-518 | an assignment visits its value, then its targets last to first, and dispatches the result |
| TrackerProps.DispatchAssignment | src/sphinx_codeautolink/parse.py:336-340 | an assignment resolves its value, then its targets with the value's access |
| TrackerProps.ResolveBoundLoad | src/sphinx_codeautolink/parse.py:310-334 | a loaded chain with a bound base records its access and passes it on |
| TrackerProps.ResolveOneName | src/sphinx_codeautolink/parse.py:353-364 | assigning an access to one name binds the name to the access's full components, leaves every other binding of the innermost scope, and records the name |
| TrackerProps.VisitOneTarget | src/sphinx_codeautolink/parse.py:512-517 | a single target is visited and wrapped as one target list |
| TrackerProps.VisitStorePair | src/sphinx_codeautolink/parse.py:493-501 | a stored tuple's elements are visited in order and their chains concatenated |
| TrackerProps.UnpackingForgets | src/sphinx_codeautolink/parse.py:342-351 | `x, y = v` forgets both names and binds nothing |
| TrackerProps.VisitNamePair | src/sphinx_codeautolink/parse.py:491-501 | a stored pair of names yields both chains and changes nothing |
| TrackerProps.UnpackForgetsPair | src/sphinx_codeautolink/parse.py:346-348 | with two elements the value is dropped, so both names are forgotten |
| TrackerProps.BoundNames | src/sphinx_codeautolink/parse.py:448-453 | the key each alias binds, in order |
| TrackerProps.ImportNamesScope | src/sphinx_codeautolink/parse.py:435-453 | the import loop sets the innermost scope to the imported scope |
| TrackerProps.ImportedScopeKeys | src/sphinx_codeautolink/parse.py:435-453 | after an import exactly the old names and the bound keys are present; other bindings are unchanged |
| TrackerProps.ImportedScopeChains | src/sphinx_codeautolink/parse.py:446-453 | every bound key holds the chain of the last alias that binds it |
| TrackerProps.ImportNamesStar | src/sphinx_codeautolink/parse.py:436-442 | a star import records no import targets |
| TrackerProps.VisitImportFromUnfold | src/sphinx_codeautolink/parse.py:455-461 | an absolute `from` import is `visit_Import` with prefix `module.` |
| TrackerProps.ImportNamesOne | src/sphinx_codeautolink/parse.py:435-453 | one alias records its target unless starred, then binds its key |
| TrackerProps.ImportOne | src/sphinx_codeautolink/parse.py:407-453 | `import a.b as c` binds `c` to the import chain, records the dotted target, and logs nothing |
| TrackerProps.ImportDottedBindsFirstPart | src/sphinx_codeautolink/parse.py:445-447 | an unaliased dotted import binds only its first part |
| TrackerProps.ModulePrefix | src/sphinx_codeautolink/parse.py:430 | stripping the trailing dot of `module.` gives back the module |
| TrackerProps.FromPath | src/sphinx_codeautolink/parse.py:449-452 | the bound chain of `from m import x` is the parts of `m` followed by `x` |
| TrackerProps.FromImportOne | src/sphinx_codeautolink/parse.py:455-461 | `from m import x` binds `x` to `m.x`, and records the module path and the target |
| TrackerProps.FromImportUnfold | src/sphinx_codeautolink/parse.py:407-453 | the absolute branch records the module path, then runs the import loop |
| TrackerProps.FromImportState | src/sphinx_codeautolink/parse.py:430-453 | the state after the import loop of `from m import x` |
| TrackerProps.RelativeImportForgets | src/sphinx_codeautolink/parse.py:457-459 | a relative import forgets each alias-or-name and records nothing |
| TrackerProps.FailedStarImport | src/sphinx_codeautolink/parse.py:418-425 | a star import of an unimportable module binds nothing and logs the warning |
| TrackerProps.StarImportBindsPublicNames | src/sphinx_codeautolink/parse.py:409-453 | `from m import *` binds exactly the public names of `m`, each to `m.name`, and leaves other bindings |
| TrackerProps.StarImportUnfold | src/sphinx_codeautolink/parse.py:409-417 | a star import of an importable module imports its public names unaliased |
| TrackerProps.StarScope | src/sphinx_codeautolink/parse.py:448-453 | the scope after binding the public names |
| TrackerProps.StarImportState | src/sphinx_codeautolink/parse.py:430-453 | the state after a star import's loop |
| TrackerProps.GlobalBindsFromOutermost | src/sphinx_codeautolink/parse.py:384-394 | `global x` in a function binds `x` to the module scope's chain and records it, or forgets `x` |
| TrackerProps.GlobalAtModuleLevel | src/sphinx_codeautolink/parse.py:386-387 | `global` at module level changes nothing |
| TrackerProps.NonlocalBindsInnermost | src/sphinx_codeautolink/parse.py:396-405 | `nonlocal x` binds `x` from the innermost enclosing scope that has it, or forgets `x` |
| TrackerProps.AnnotatedValueAsWritten | src/sphinx_codeautolink/parse.py:525-527 | as written, a walrus value reaches `resolve_pending_access` and raises |
| TrackerProps.AnnotatedWalrusRaises | src/sphinx_codeautolink/parse.py:520-535 | `x: a = (y := b)` gives an assignment value and a chain annotation, so the code as written raises |
| TrackerProps.AnnotatedWalrusBinds | src/sphinx_codeautolink/parse.py:520-535 | dispatching the walrus value binds `y` to the chain of `b` and records both uses |
| TrackerProps.LoadAttributeRecords | src/sphinx_codeautolink/parse.py:468-474 | a loaded `a.b` at the top returns the chain `a.b` and records it from the binding of `a` when `a` is bound; no binding changes |
| TrackerProps.ForUnfold | src/sphinx_codeautolink/parse.py:589-596 | a loop with an empty body visits its iterable, then its target |
| TrackerProps.ForRecordsIterThenForgets | src/sphinx_codeautolink/parse.py:589-596 | `for x in a.b: pass` records `a.b` from the binding `a` had before the loop, when bound, then forgets `x`; every other binding is kept |
| TrackerProps.DottedLoadBelowTop | src/sphinx_codeautolink/parse.py:468-474 | below the top, `a.b` changes nothing and returns the chain `a.b` |
| TrackerProps.NoTargetRecordsValue | src/sphinx_codeautolink/parse.py:336-357 | a loaded chain assigned to no target is recorded when its base is bound, and nothing is bound |
| TrackerProps.OtherTarget | src/sphinx_codeautolink/parse.py:282-292 | a target the visitor has no method for, such as a list, visits its children at the top and contributes no element |
| TrackerProps.ListAssignUnfold | src/sphinx_codeautolink/parse.py:508-518 | `[x, y] = a.b` visits `a.b` below the top, then the list's names at the top, then resolves `a.b` with no target |
| TrackerProps.StorePairForgets | src/sphinx_codeautolink/parse.py:324-329 | two stored names visited at the top are forgotten, and nothing is recorded |
| TrackerProps.ListTargetForgets | src/sphinx_codeautolink/parse.py:282-292 | `[x, y] = a.b` forgets `x` and `y` before `a.b` is resolved: `a.b` is recorded only when `a` is bound and is neither `x` nor `y`, and nothing is bound |
| TrackerProps.CallRecordsChain | src/sphinx_codeautolink/parse.py:476-489 | `a.b(args)` at the top visits its arguments at the top first, then records `a.b` followed by the call marker from the binding `a` has after them, and returns that chain |
| TrackerProps.PlainParamForgets | src/sphinx_codeautolink/parse.py:648-660 | a parameter without an annotation is assigned nothing: its name is forgotten and nothing is recorded |
| TrackerProps.NoValueForgets | src/sphinx_codeautolink/parse.py:353-362 | a single name assigned no value is forgotten, and nothing is recorded |
| TrackerProps.AnnotatedParamBinds | src/sphinx_codeautolink/parse.py:648-660 | a parameter `x: a` with `a` bound records `a` called, binds `x` to the chain of `a` followed by the call marker, and records the use of `x` |
| TrackerProps.CaptureForgets | src/sphinx_codeautolink/parse.py:580-583 | `case x:` forgets `x`, as a stored name does, and records nothing |
| TrackerProps.WildcardChangesNothing | src/sphinx_codeautolink/parse.py:580-583 | `case _:` pops the name `None`, which no scope binds, so the state is unchanged |
| TrackerProps.VisitMatchClassUnfold | src/sphinx_codeautolink/parse.py:551-578 | a class pattern visits its class at the top, then its positional patterns, then its keyword patterns, resolves the captures, and resolves the keyword assignments with splitting off |
| TrackerProps.PatternsOne | src/sphinx_codeautolink/parse.py:557-560 | a single capture or wildcard changes nothing while the patterns are visited and contributes its chain |
| TrackerProps.KwdPatternsOne | src/sphinx_codeautolink/parse.py:562-570 | a single keyword capture or wildcard changes nothing while visited and contributes one assignment of the class chain, a call and the attribute |
| TrackerProps.ResolveOneCapture | src/sphinx_codeautolink/parse.py:572-573 | resolving a single captured store chain forgets its name |
| TrackerProps.ResolveOneKeyword | src/sphinx_codeautolink/parse.py:575-577 | resolving a single keyword assignment is `resolve_assignment` of it |
| TrackerProps.PositionalCaptureForgets | src/sphinx_codeautolink/parse.py:551-578 | `case C(x):` records the use of `C` when bound and forgets `x`; every other binding is kept |
| TrackerProps.KeywordPatternSteps | src/sphinx_codeautolink/parse.py:551-578 | `case a.C(attr=p):` records `a.C` from the binding of `a`, then resolves the assignment of `a.C.().attr` to `p`'s target with splitting off, and restores `no_split` |
| TrackerProps.ResolveKeywordCapture | src/sphinx_codeautolink/parse.py:336-367 | without splitting, assigning a bound chain to one name records the chain whole, binds the name to its full components and records the name's use |
| TrackerProps.ResolveKeywordNothing | src/sphinx_codeautolink/parse.py:336-357 | without splitting, assigning a bound chain to no target records the chain whole and binds nothing |
| TrackerProps.KeywordCaptureBinds | src/sphinx_codeautolink/parse.py:551-578 | `case a.C(attr=x):` with `a` bound records `a.C`, then the whole, unsplit `a.C.().attr`, binds `x` to its full components, records the use of `x`, and restores `no_split` |
| TrackerProps.KeywordCaptureState | src/sphinx_codeautolink/parse.py:336-367 | the state `case a.C(attr=x):` leaves, from the state before it |
| TrackerProps.KeywordWildcardBindsNothing | src/sphinx_codeautolink/parse.py:551-578 | corrected: `case a.C(attr=_):` with `a` bound records `a.C` and the unsplit `a.C.().attr`, and binds nothing |
| TrackerProps.KeywordWildcardState | src/sphinx_codeautolink/parse.py:336-357 | the state the corrected `case a.C(attr=_):` leaves, from the state before it |
| TrackerProps.KeywordWildcardAsWritten | src/sphinx_codeautolink/parse.py:562-570 | as written, the keyword wildcard's target is the chain named `None`: with the class bound, `None` becomes bound and the recorded use is an access whose only component is named `None`, which `to_name` cannot convert (the source raises `TypeError` there) |
| ScopeProps.FunctionBodyContained | src/sphinx_codeautolink/parse.py:613-646 | a function definition only forgets its name in the enclosing scope; its body's bindings stay inside |
| ScopeProps.MethodsSeeModuleScope | src/sphinx_codeautolink/parse.py:628-631 | a method body sees the module scope, not the class body: equal module scopes give the same records |
| ScopeProps.PlainFunctionDef | src/sphinx_codeautolink/parse.py:613-646 | a plain definition forgets its name, then adds the inner visitor's records |
| ScopeProps.AnnotatedParamUsed | src/sphinx_codeautolink/parse.py:613-660 | `def f(x: a): x.b` with `a` bound in the module scope records, each split at its calls, `a` called, the use of `x`, and `x.b` through `x`'s binding, which reaches `b` as `a.().b`; only `f` is forgotten outside |
| ScopeProps.ForgetKeepsModuleBinding | src/sphinx_codeautolink/parse.py:613-620 | forgetting a function's name keeps every other binding of the module scope |
| ScopeProps.PlainDefOneParam | src/sphinx_codeautolink/parse.py:613-646 | a plain definition with one parameter and one statement forgets its name and adds what the statement records after the parameter, in a visitor that starts from the module scope |
| ScopeProps.InnerOfOneParam | src/sphinx_codeautolink/parse.py:627-646 | the new visitor of such a definition visits the parameter, then the statement |
| ScopeProps.AnnotatedDefInner | src/sphinx_codeautolink/parse.py:627-660 | what the new visitor of `def f(x: a): x.b` records when `a` is bound in the module scope |
| ScopeProps.ParamThenUse | src/sphinx_codeautolink/parse.py:648-660 | after the parameter `x: a`, the statement `x.b` records the uses of `a` called, of `x`, and of `x.b` through `x`'s binding |
| ScopeProps.ThroughCall | src/sphinx_codeautolink/parse.py:147-158 | a name bound to a chain called, then followed by an attribute, reaches the attribute through the call |
| ScopeProps.CompKeepsScopes | src/sphinx_codeautolink/parse.py:703-713 | a comprehension changes no scope |
| ScopeProps.ComprehensionSeesInnermostScope | src/sphinx_codeautolink/parse.py:706 | a comprehension starts from a copy of the innermost scope: equal innermost scopes give the same records |
| ScopeProps.CompUnfold | src/sphinx_codeautolink/parse.py:703-713 | a comprehension adds exactly its inner visitor's records |
| ScopeProps.LambdaKeepsScopes | src/sphinx_codeautolink/parse.py:662-678 | a lambda changes no scope |
| ScopeProps.LambdaSeesModuleScopeWithoutParams | src/sphinx_codeautolink/parse.py:671-676 | a lambda body sees the module scope less its parameters |
| ScopeProps.PlainLambda | src/sphinx_codeautolink/parse.py:662-678 | a lambda adds exactly its inner visitor's records |
| ScopeProps.OverwriteAllSingle | src/sphinx_codeautolink/parse.py:674-676 | forgetting the parameters removes exactly them from a single scope |
| ScopeProps.ClassBodyContained | src/sphinx_codeautolink/parse.py:598-611 | a class definition only forgets its name; its body's bindings are popped with its scope |
| TrackerVisitor.ToNamesAppend | src/sphinx_codeautolink/parse.py:262-265 | converting accesses to names distributes over concatenation |
| TrackerVisitor.SavedNames | src/sphinx_codeautolink/parse.py:262-265 | the names saved for an access are its one name under `no_split`, else its split names |
| TrackerVisitor.ImportTrackerVisitor.constructor | src/sphinx_codeautolink/parse.py:244-260 | a new visitor has no accesses and only the builtin scope |
| TrackerVisitor.ImportTrackerVisitor.OverwriteName | src/sphinx_codeautolink/parse.py:294-302 | the fields become `Tracker.OverwriteName` of the old state |
| TrackerVisitor.ImportTrackerVisitor.AssignName | src/sphinx_codeautolink/parse.py:304-308 | the fields become `Tracker.AssignName` of the old state |
| TrackerVisitor.ImportTrackerVisitor.SaveAccess | src/sphinx_codeautolink/parse.py:262-265 | `accessed` grows by the access's one name under `no_split`, else by its split names |
| TrackerVisitor.ImportTrackerVisitor.CreateAccess | src/sphinx_codeautolink/parse.py:310-320 | state and result are those of `Tracker.CreateAccess` |
| TrackerVisitor.ImportTrackerVisitor.ResolvePending | src/sphinx_codeautolink/parse.py:322-334 | state and result are those of `Tracker.ResolvePending` |
| TrackerVisitor.ImportTrackerVisitor.CreateSimpleAccess | src/sphinx_codeautolink/parse.py:369-372 | the fields become `Tracker.CreateSimpleAccess` of the old state |
| TrackerVisitor.ImportTrackerVisitor.ImportNames | src/sphinx_codeautolink/parse.py:435-453 | the loop over aliases ends in `Tracker.ImportNames` of the old state |
| TrackerVisitor.ImportTrackerVisitor.ImportName | src/sphinx_codeautolink/parse.py:436-453 | one iteration records the target unless starred, then binds the alias |
| TrackerVisitor.ImportTrackerVisitor.VisitImport | src/sphinx_codeautolink/parse.py:407-453 | the fields become `Tracker.VisitImport` of the old state |
| TrackerVisitor.ImportTrackerVisitor.OverwriteAll | src/sphinx_codeautolink/parse.py:457-459 | the relative-import loop ends in `Tracker.OverwriteAll` |
| TrackerVisitor.ImportTrackerVisitor.GlobalName | src/sphinx_codeautolink/parse.py:390-394 | one `global` name is bound from the module scope or forgotten |
| TrackerVisitor.ImportTrackerVisitor.VisitGlobal | src/sphinx_codeautolink/parse.py:384-394 | at module level nothing changes; otherwise the loop ends in `Tracker.GlobalNames` |
| TrackerVisitor.ImportTrackerVisitor.VisitNonlocal | src/sphinx_codeautolink/parse.py:396-405 | the loop ends in `Tracker.NonlocalNames` over the enclosing scopes |
| TrackerVisitor.ImportTrackerVisitor.FindInnermost | src/sphinx_codeautolink/parse.py:401-405 | the reversed search finds the innermost scope binding the name, as `Innermost` defines it |
| Pycon.WsRun | src/sphinx_codeautolink/extension/block.py:36 | a greedy `\s*` consumes exactly the leading whitespace |
| Pycon.DigitRun | src/sphinx_codeautolink/extension/block.py:54 | a greedy `[0-9]*` consumes exactly the leading digits |
| Pycon.DotRun | src/sphinx_codeautolink/extension/block.py:68 | a greedy `\.*` consumes exactly the leading dots |
| Pycon.BlanklineAtExact | src/sphinx_codeautolink/extension/block.py:36 | the greedy scan matches `\s*<BLANKLINE>` exactly when some whitespace run is followed by the marker |
| Pycon.StripMarkerFree | src/sphinx_codeautolink/extension/block.py:36 | text without a `<` is left unchanged by the substitution |
| Pycon.BlanklineLineEmptied | src/sphinx_codeautolink/extension/block.py:36 | a line of whitespace and `<BLANKLINE>` becomes empty |
| Pycon.StripFrom | src/sphinx_codeautolink/extension/block.py:36 | the multiline substitution never lengthens the text |
| Pycon.PyconLinesAt | src/sphinx_codeautolink/extension/block.py:38-46 | line `i` of the cleaned code loses its prompt when it opens a statement or continues one, and is emptied otherwise |
| Pycon.PyconLines | src/sphinx_codeautolink/extension/block.py:38-46 | the cleaning loop gives one line per input line |
| Pycon.CleanPycon | src/sphinx_codeautolink/extension/block.py:33-47 | `clean_pycon` returns the stripped source and its cleaned lines |
| Pycon.PyconLinesNext | src/sphinx_codeautolink/extension/block.py:38-46 | one iteration of the cleaning loop |
| Pycon.CleanLines | src/sphinx_codeautolink/extension/block.py:38-46 | the loop with its `in_statement` flag computes the cleaned lines |
| Pycon.CleanPyconLines | src/sphinx_codeautolink/extension/block.py:33-47 | the cleaned source has as many lines as the stripped one, each cleaned as above |
| Pycon.LeadsWithPromptExact | src/sphinx_codeautolink/extension/block.py:58 | the prompt test holds exactly when some line is a prompt and all lines before it are blank or comments |
| Pycon.KeptLines | src/sphinx_codeautolink/extension/block.py:62-74 | the output filter gives one line per input line |
| Pycon.KeptLinesAt | src/sphinx_codeautolink/extension/block.py:62-74 | each line is kept when it is a prompt, a continuation or a comment, and emptied otherwise |
| Pycon.ExcludeIPythonOutput | src/sphinx_codeautolink/extension/block.py:53-75 | the loop computes `ExcludedOutput` |
| Pycon.ExcludedOutputLines | src/sphinx_codeautolink/extension/block.py:53-75 | without a leading prompt the source is unchanged; with one, the line count is kept and output lines are emptied |
| Block.Concat | src/sphinx_codeautolink/extension/block.py:126-139 | a concat marker clears the sources and turns section mode on exactly for `section`; any other mode turns global mode on exactly when it is `on` |
| Block.Skip | src/sphinx_codeautolink/extension/block.py:143-150 | a skip marker sets the level (`off` clears it) and logs an error exactly for an unknown level |
| Block.Title | src/sphinx_codeautolink/extension/block.py:155-162 | a title is pushed, ends section concatenation with its sources, and ends a section skip |
| Block.Kept | src/sphinx_codeautolink/extension/block.py:242 | exactly the names on a positive line are kept |
| Block.BlockVisited | src/sphinx_codeautolink/extension/block.py:180-242 | a block takes the prefaces, ends a `next` skip, leaves titles and modes, does nothing else when skipped, and adds at most one transform |
| Block.ConcatGrowth | src/sphinx_codeautolink/extension/block.py:238-239 | concatenation grows by the prefaces and the cleaned block only after a successful parse while active |
| Block.TransformAdded | src/sphinx_codeautolink/extension/block.py:199-229 | an analysed block records one transform, with names only when it parses; a parse failure logs the source listing |
| Block.BlockNamesExact | src/sphinx_codeautolink/extension/block.py:231-242 | a block keeps exactly the parsed names moved up by the hidden lines that land on its own lines |
| Block.HiddenLenCountsLines | src/sphinx_codeautolink/extension/block.py:218-220 | the hidden length is the number of lines before the block in the parsed source |
| Block.LineCountsAppend | src/sphinx_codeautolink/extension/block.py:232 | line counts add up over concatenation |
| Block.Guides | src/sphinx_codeautolink/extension/block.py:251-262 | one gutter per line |
| Block.MaxWidth | src/sphinx_codeautolink/extension/block.py:263 | the pad is one more than the longest gutter |
| Block.LJust | src/sphinx_codeautolink/extension/block.py:264 | `ljust` pads with spaces to the width and keeps the gutter as a prefix |
| Block.ErrorRows | src/sphinx_codeautolink/extension/block.py:251-265 | one row per line of the hidden sources and the block |
| Block.GuideWidth | src/sphinx_codeautolink/extension/block.py:253-263 | the pad is 16, 15 or 14 depending on which sections exist |
| Block.ErrorRowsShape | src/sphinx_codeautolink/extension/block.py:244-266 | each row is its padded gutter then its line; each label appears exactly on the first line of its section |
| Block.LabelPrefix | src/sphinx_codeautolink/extension/block.py:255-262 | the labels are told apart by their prefixes |
| Block.NamePattern | src/sphinx_codeautolink/extension/block.py:393-415 | a one-part name in the plain or the after-call context is one span of any token class between that context's look-arounds; an import name is the `from` span or the import-target span between the import look-arounds |
| Block.DottedSingle | src/sphinx_codeautolink/extension/block.py:393-415 | a name without a dot is one span of any token class |
| Block.DottedExtend | src/sphinx_codeautolink/extension/block.py:393-415 | each further dotted part adds the period pattern and one plain name span |
| Block.CodeBlockAnalyser.constructor | src/sphinx_codeautolink/extension/block.py:99-122 | built-in transformers overridden by custom ones; nothing pending |
| Block.CodeBlockAnalyser.UnknownVisit | src/sphinx_codeautolink/extension/block.py:124-150 | the state becomes `VisitMarker` of the old state |
| Block.CodeBlockAnalyser.VisitTitle | src/sphinx_codeautolink/extension/block.py:155-162 | the state becomes `Title` of the old state |
| Block.CodeBlockAnalyser.VisitSection | src/sphinx_codeautolink/extension/block.py:164-166 | the section's first id becomes current |
| Block.CodeBlockAnalyser.DepartSection | src/sphinx_codeautolink/extension/block.py:168-170 | the last title is popped |
| Block.CodeBlockAnalyser.VisitDoctestBlock | src/sphinx_codeautolink/extension/block.py:172-174 | a doctest block is a `pycon` block |
| Block.CodeBlockAnalyser.ParseSource | src/sphinx_codeautolink/extension/block.py:180-242 | the state becomes `BlockVisited` of the old state |
| Block.CodeBlockAnalyser.RecordBlock | src/sphinx_codeautolink/extension/block.py:212-242 | the rest of `parse_source` after the transformer |
| Block.CodeBlockAnalyser.PlaceNames | src/sphinx_codeautolink/extension/block.py:231-242 | the shifted, kept names are `BlockNames` |
| Block.CodeBlockAnalyser.RunTransformer | src/sphinx_codeautolink/extension/block.py:199-211 | the transformer's output, or `None` when it raises |
| Block.CodeBlockAnalyser.ShiftNames | src/sphinx_codeautolink/extension/block.py:234-236 | every name moves up by the hidden length |
| Block.CodeBlockAnalyser.FormatSourceForError | src/sphinx_codeautolink/extension/block.py:244-266 | the listing is `ErrorListing` |
| Block.CodeBlockAnalyser.LabelSections | src/sphinx_codeautolink/extension/block.py:251-262 | the gutters are `Guides` |
| Resolve.Fqn | src/sphinx_codeautolink/extension/resolve.py:144-146 | a fully qualified name exists exactly when both module and qualname do |
| Resolve.ClassName | src/sphinx_codeautolink/extension/resolve.py:144-146 | a class always has its fully qualified name |
| Resolve.FirstFailure | src/sphinx_codeautolink/extension/resolve.py:163-172 | the import loop stops at the first prefix that fails to import |
| Resolve.ModulePrefix | src/sphinx_codeautolink/extension/resolve.py:157-173 | `closest_module` fails exactly when the first component does not import, with its message; otherwise it returns the prefix before the first failing import: every shorter prefix imports and the next longer one does not (a longer prefix past that failure is never tried) |
| Resolve.MakeCursorOf | src/sphinx_codeautolink/extension/resolve.py:57-61 | the cursor starts at the closest module, with the remaining components |
| Resolve.DocumentedBase | src/sphinx_codeautolink/extension/resolve.py:89-94 | the first class in the MRO whose member is documented, or none |
| Resolve.Step | src/sphinx_codeautolink/extension/resolve.py:68-87 | an attribute step stays in the graph |
| Resolve.Fallback | src/sphinx_codeautolink/extension/resolve.py:89-94 | the fallback applies only to a class whose new location is undocumented, and points to a documented member |
| Resolve.LocateTypeOf | src/sphinx_codeautolink/extension/resolve.py:64-98 | locating stays in the graph; no components return the cursor |
| Resolve.ReturnAnnotation | src/sphinx_codeautolink/extension/resolve.py:119-141 | only a class hint is followed, and `Optional` is unwrapped once |
| Resolve.CallValueOf | src/sphinx_codeautolink/extension/resolve.py:101-139 | calling an uninstantiated class gives an instance of it; otherwise the call fails with an empty message exactly when the value is neither a routine nor a callable instance; else the class of the return annotation of the routine, or of the instance's `__call__`, is the new value, as an instance located at that class, and a missing annotation fails with "Unable to follow return annotation of ..." |
| Resolve.Callee | src/sphinx_codeautolink/extension/resolve.py:108-113 | the routine that runs a call: a routine itself, or a callable instance's `__call__` |
| Resolve.Advance | src/sphinx_codeautolink/extension/resolve.py:28-39 | walking a segment stays in the graph |
| Resolve.Segments | src/sphinx_codeautolink/extension/resolve.py:26-38 | the chain cut at its calls, no segment holding a marker |
| Resolve.WalkSegments | src/sphinx_codeautolink/extension/resolve.py:26-41 | the loop over components equals resolving segment by segment |
| Resolve.ResolvedBySegments | src/sphinx_codeautolink/extension/resolve.py:17-41 | `resolve_location` is resolution by segments |
| Resolve.SegmentsFree | src/sphinx_codeautolink/extension/resolve.py:26-38 | a chain without calls is one segment |
| Resolve.UnimportableFallsBack | src/sphinx_codeautolink/extension/resolve.py:40-41 | an unimportable chain without calls resolves to its dotted path |
| Resolve.UnimportableCallFails | src/sphinx_codeautolink/extension/resolve.py:28-31 | an unimportable chain with a call fails |
| Resolve.SegmentsMarker | src/sphinx_codeautolink/extension/resolve.py:28-38 | a call makes at least two segments |
| Resolve.SegmentsHead | src/sphinx_codeautolink/extension/resolve.py:26-38 | the first segment starts with the chain's base |
| Resolve.MissingAttribute | src/sphinx_codeautolink/extension/resolve.py:75-77 | a missing attribute fails with `... does not exist.` |
| Resolve.ClassAttribute | src/sphinx_codeautolink/extension/resolve.py:79-87 | a class attribute becomes a class cursor at its qualified name |
| Resolve.RoutineAttribute | src/sphinx_codeautolink/extension/resolve.py:82-87 | a routine keeps its path when documented, else takes its qualified name |
| Resolve.InheritedMember | src/sphinx_codeautolink/extension/resolve.py:89-94 | an undocumented member of a class is found at its first documented base |
| Resolve.OptionalUnwrapped | src/sphinx_codeautolink/extension/resolve.py:131-139 | `Optional[T]` is followed to `T`, in either order |
| Resolve.UnionUnwrappedOnce | src/sphinx_codeautolink/extension/resolve.py:131-139 | a union is not followed unless it has exactly two members, one of them `None` and the other not a union after `None` |
| Resolve.NotCallable | src/sphinx_codeautolink/extension/resolve.py:101-116 | calling a module or a plain value fails with an empty message |
| Resolve.UnfollowableRoutine | src/sphinx_codeautolink/extension/resolve.py:106-112 | a routine without a followable hint fails with its debug name |
| Resolve.AsWrittenAgrees | src/sphinx_codeautolink/extension/resolve.py:64-98 | whenever `locate_type` as written terminates, it agrees with the corrected walk |
| Resolve.RestartAgrees | src/sphinx_codeautolink/extension/resolve.py:89-94 | agreement through a restart at the base |
| Resolve.StepAgrees | src/sphinx_codeautolink/extension/resolve.py:68-96 | agreement through a plain step |
| Resolve.RetriedAgrees | src/sphinx_codeautolink/extension/resolve.py:89-94 | after a restart the as-written walk only terminates along the corrected one |
| Resolve.LoopGraph | src/sphinx_codeautolink/extension/resolve.py:89-94 | the graph of the counterexample is valid |
| Resolve.LoopStep | src/sphinx_codeautolink/extension/resolve.py:68-94 | in it, `m.C.D` normalises to `n.D` and falls back to `m.C` itself |
| Resolve.LoopOnD | src/sphinx_codeautolink/extension/resolve.py:89-94 | there the restart repeats forever |
| Resolve.LocateTypeAsWritten | src/sphinx_codeautolink/extension/resolve.py:64-98 | `locate_type` as written, with the restarts counted against a bound: a cursor it returns stays in the graph, and no components return the given cursor |
| Resolve.FallbackRecursesForever | src/sphinx_codeautolink/extension/resolve.py:64-98 | `locate_type` as written never returns on `m.C.D`; the corrected walk does |
| Resolve.Cursor.constructor | src/sphinx_codeautolink/extension/resolve.py:48-54 | a cursor holds its location, value and instance flag |
| Resolve.Cursor.CallValue | src/sphinx_codeautolink/extension/resolve.py:101-116 | the cursor is updated in place to `CallValueOf`, or the error is returned |
| Resolve.ClosestModule | src/sphinx_codeautolink/extension/resolve.py:157-173 | the import loop computes `ModulePrefix` |
| Resolve.MakeCursor | src/sphinx_codeautolink/extension/resolve.py:57-61 | a fresh cursor in the state `MakeCursorOf` gives |
| Resolve.FindDocumentedBase | src/sphinx_codeautolink/extension/resolve.py:90-94 | the MRO loop computes `DocumentedBase` |
| Resolve.LocateRestarts | src/sphinx_codeautolink/extension/resolve.py:89-94 | a fallback restarts at the base with the same components |
| Resolve.LocateAdvances | src/sphinx_codeautolink/extension/resolve.py:68-96 | otherwise locating continues from the new cursor |
| Resolve.AttributeCursor | src/sphinx_codeautolink/extension/resolve.py:68-87 | a fresh cursor in the state of `Step` |
| Resolve.LocateType | src/sphinx_codeautolink/extension/resolve.py:64-98 | the loop computes `LocateTypeOf` |
| Resolve.CallStep | src/sphinx_codeautolink/extension/resolve.py:28-35 | a call marker creates or advances the cursor, then calls it |
| Resolve.Finish | src/sphinx_codeautolink/extension/resolve.py:37-41 | the end of `resolve_location` |
| Resolve.ResolveLocation | src/sphinx_codeautolink/extension/resolve.py:17-41 | `resolve_location` computes `Resolved` |
| Inventory.Placed | src/sphinx_codeautolink/extension/__init__.py:300-304 | each entry's location is kept when a URL and made relative otherwise |
| Inventory.AssignConcat | src/sphinx_codeautolink/extension/__init__.py:304 | assignments compose over concatenation |
| Inventory.AssignLast | src/sphinx_codeautolink/extension/__init__.py:304 | a key is present exactly when named, with the value of its last pair |
| Inventory.TransposeInventory | src/sphinx_codeautolink/extension/__init__.py:283-305 | the nested loops compute the assignments of the Python-domain entries |
| Inventory.Transposed | src/sphinx_codeautolink/extension/__init__.py:283-305 | a name is in the transposed inventory exactly when a `py:` type lists it, and it maps to the location of the last listing of it |
| Inventory.PyItemsNames | src/sphinx_codeautolink/extension/__init__.py:296-298 | only Python-domain types contribute names |
| Inventory.LocalItems | src/sphinx_codeautolink/extension/__init__.py:158-166 | the local inventory yields one entry per object |
| Inventory.MakeInventory | src/sphinx_codeautolink/extension/__init__.py:155-171 | a name intersphinx lists and no local object lists keeps its intersphinx location |
| Inventory.LocalOverrides | src/sphinx_codeautolink/extension/__init__.py:155-171 | a name is in the inventory exactly when intersphinx or a local object lists it; local objects win |
| Extension.LineText | src/sphinx_codeautolink/extension/__init__.py:243-247 | exactly `line ` and `str(N)` when the lines are equal, exactly `lines `, `str(N)`, `-`, `str(M)` otherwise |
| Extension.WarningPathCalls | src/sphinx_codeautolink/extension/__init__.py:209 | replacing `.()` by `()` gives the reference path: calls attach to what precedes them |
| Extension.WarningPathHead | src/sphinx_codeautolink/extension/__init__.py:209 | the first component passes through the replacement unchanged |
| Extension.WarningPathStep | src/sphinx_codeautolink/extension/__init__.py:209 | a component put in front of a path keeps the path equal to its reference |
| Extension.Judge | src/sphinx_codeautolink/extension/__init__.py:203-237 | a name is blank, unresolved exactly when resolution fails, or linked/missing exactly as its mapped key is in the inventory |
| Extension.Warned | src/sphinx_codeautolink/extension/__init__.py:205-234 | at most one warning per name, located at the transform, exactly when the switch for its failure is on |
| Extension.UnimportableLinkedByPath | src/sphinx_codeautolink/extension/__init__.py:207-221 | an unimportable chain without calls is looked up by its dotted path |
| Extension.Verdicts | src/sphinx_codeautolink/extension/__init__.py:201-237 | one verdict per name, each decided as `Judge` decides it |
| Extension.VerdictsSound | src/sphinx_codeautolink/extension/__init__.py:221-238 | linked keys are in the inventory and missing ones are not |
| Extension.Blank | src/sphinx_codeautolink/extension/__init__.py:203-204 | blank names are counted |
| Extension.KeptLocated | src/sphinx_codeautolink/extension/__init__.py:238-240 | every kept name carries its location, which is in the inventory |
| Extension.SkippedMissing | src/sphinx_codeautolink/extension/__init__.py:235 | no skipped key is in the inventory |
| Extension.WarningsLocated | src/sphinx_codeautolink/extension/__init__.py:205-234 | warnings point at their transform; with both switches off nothing is logged |
| Extension.WarningsAccounted | src/sphinx_codeautolink/extension/__init__.py:201-240 | with both switches on, every name is blank, kept or warned about |
| Extension.NamesStep | src/sphinx_codeautolink/extension/__init__.py:201-240 | one more name grows the kept names, skipped keys and warnings by its verdict |
| Extension.KeptAppend | src/sphinx_codeautolink/extension/__init__.py:238-240 | filtering keeps order |
| Extension.KeptExact | src/sphinx_codeautolink/extension/__init__.py:238-240 | the kept names are exactly the linked ones, with their keys |
| Extension.SkippedExact | src/sphinx_codeautolink/extension/__init__.py:235 | the skipped keys are exactly the missing ones |
| Extension.FilteredTransforms | src/sphinx_codeautolink/extension/__init__.py:200-240 | one filtered transform per transform |
| Extension.TransformsStep | src/sphinx_codeautolink/extension/__init__.py:200-240 | one more transform extends the document folds |
| Extension.FilteredLocated | src/sphinx_codeautolink/extension/__init__.py:238-240 | after filtering every name left is located in the inventory |
| Extension.TransformsSkippedMissing | src/sphinx_codeautolink/extension/__init__.py:235 | no key a document skips is in the inventory |
| Extension.AddNamesGet | src/sphinx_codeautolink/extension/__init__.py:183-187 | grouping one transform appends its example once per name at the key |
| Extension.RefsGrouped | src/sphinx_codeautolink/extension/__init__.py:182-187 | grouping appends each key's examples transform by transform |
| Extension.RefsKeys | src/sphinx_codeautolink/extension/__init__.py:182-187 | a key is present exactly when it was or receives an example |
| Extension.ExamplesLocated | src/sphinx_codeautolink/extension/__init__.py:182-187 | examples only go to located keys |
| Extension.OccurrencesLocated | src/sphinx_codeautolink/extension/__init__.py:184-187 | a name's key is in the inventory |
| Extension.Outcomes | src/sphinx_codeautolink/extension/__init__.py:181 | the filtering outcome of each document |
| Extension.Fold | src/sphinx_codeautolink/extension/__init__.py:181-187 | one cache entry per document |
| Extension.FoldNext | src/sphinx_codeautolink/extension/__init__.py:181-187 | one more document of the loop |
| Extension.FoldSound | src/sphinx_codeautolink/extension/__init__.py:181-187 | the cache holds each document's filtered transforms, and skipped keys are missing |
| Extension.DocsPassSound | src/sphinx_codeautolink/extension/__init__.py:179-187 | after the pass every cached name is located and every skipped key missing |
| Extension.RefsDocumented | src/sphinx_codeautolink/extension/__init__.py:182-187 | every location the pass adds to the references is in the inventory |
| Extension.SortedTops | src/sphinx_codeautolink/extension/__init__.py:189 | the top-level modules of the skipped keys, sorted and without repeats |
| Extension.TopModules | src/sphinx_codeautolink/extension/__init__.py:189 | the set comprehension and sort compute `SortedTops` |
| Extension.Quoted | src/sphinx_codeautolink/extension/__init__.py:190-193 | one quoted module per top |
| Extension.Closing | src/sphinx_codeautolink/extension/__init__.py:188-194 | one closing warning exactly when keys were skipped and the switch is on |
| Extension.CodeAutoLink.constructor | src/sphinx_codeautolink/extension/__init__.py:173-181 | nothing resolved, grouped or logged yet |
| Extension.CodeAutoLink.JudgeName | src/sphinx_codeautolink/extension/__init__.py:203-237 | the loop body decides `Judge` |
| Extension.CodeAutoLink.LogVerdict | src/sphinx_codeautolink/extension/__init__.py:205-234 | the log grows by `Warned` |
| Extension.CodeAutoLink.FilterName | src/sphinx_codeautolink/extension/__init__.py:202-240 | one name is kept, skipped or warned about per its verdict |
| Extension.CodeAutoLink.FilterNames | src/sphinx_codeautolink/extension/__init__.py:201-240 | the names loop keeps `KeptNames`, skips `SkippedKeys` and logs `NameWarnings` |
| Extension.CodeAutoLink.FilterAndResolve | src/sphinx_codeautolink/extension/__init__.py:196-240 | `filter_and_resolve` filters each transform, adds the skipped keys and logs the warnings |
| Extension.CodeAutoLink.RecordReferences | src/sphinx_codeautolink/extension/__init__.py:183-187 | grouping a document's transforms |
| Extension.CodeAutoLink.ProcessDocument | src/sphinx_codeautolink/extension/__init__.py:181-187 | one document is filtered in the cache and grouped |
| Extension.CodeAutoLink.WarnMissingModules | src/sphinx_codeautolink/extension/__init__.py:188-194 | the log grows by `Closing` |
| Extension.CodeAutoLink.ProcessCache | src/sphinx_codeautolink/extension/__init__.py:181-187 | the document loop computes the whole pass |
| Extension.CodeAutoLink.CreateReferences | src/sphinx_codeautolink/extension/__init__.py:173-194 | with `do_nothing` nothing changes; otherwise the pass runs and the closing warning follows |
| Backref.ItemOrder | src/sphinx_codeautolink/extension/backref.py:79 | tuple order on `(link, text)` is a strict total order |
| Backref.ItemLinkFragment | src/sphinx_codeautolink/extension/backref.py:73-76 | the link has a fragment exactly when the example has a section id |
| Backref.Items | src/sphinx_codeautolink/extension/backref.py:71-77 | one item per example |
| Backref.UnknownVisit | src/sphinx_codeautolink/extension/backref.py:67-130 | the visit computes `Visited` |
| Backref.VisitedOutcome | src/sphinx_codeautolink/extension/backref.py:67-130 | other nodes are untouched; no examples remove the paragraph; otherwise the rows are exactly the examples' items, strictly increasing; an expanded table has the header "References to" and the object, a collapsed one has no header and sits in a details element summarised "Expand for references to" and the object |
| Sorting.SortedSet | src/sphinx_codeautolink/extension/backref.py:79 | `sorted(set(xs))`: strictly increasing, with exactly the elements of `xs` |
| Sorting.Insert | src/sphinx_codeautolink/extension/backref.py:79 | adding one element keeps the sequence strictly increasing and adds exactly that element |
| Text.Split | src/sphinx_codeautolink/parse.py:438 | `str.split` on one character never gives an empty list, and no piece holds the separator |
| Text.SplitCount | src/sphinx_codeautolink/parse.py:438 | one piece more than there are separators |
| Text.JoinSplit | src/sphinx_codeautolink/parse.py:438 | joining the pieces of a split gives back the string |
| Text.SplitJoin | src/sphinx_codeautolink/parse.py:451 | splitting pieces joined by a character they do not hold gives back the pieces |
| Text.IntToString | src/sphinx_codeautolink/extension/__init__.py:243-247 | `str` of an integer is non-empty and starts with `-` exactly for negatives, else with a digit |
| Text.NatToString | src/sphinx_codeautolink/extension/__init__.py:243-247 | `str` of a natural number is digits only, reads back as the number (`DigitsValue`), and has no leading zero unless it is `0` |
| Text.IntToStringDigits | src/sphinx_codeautolink/extension/__init__.py:243-247 | `str(i)` is `-` followed by the digits of `-i` for negatives, with no leading zero, and the digits of `i` otherwise; each reads back as its value |
| Text.Replace | src/sphinx_codeautolink/extension/__init__.py:209 | `str.replace` leaves a string without an occurrence of the pattern unchanged, and replacing a pattern by itself changes nothing |
| Sorting.IncreasingUnique | src/sphinx_codeautolink/extension/backref.py:79 | a strictly increasing sequence is fixed by its elements |

## Left out

- The Python parser (`ast.parse`) is a parameter: `Block` takes a function from source to names, and `Tracker` takes a syntax tree. Syntax errors are `None`.
- `Tracker.WellFormed` excludes trees the source cannot visit, because it raises `AttributeError` on them. Examples: a walrus, tuple or assignment where a chain gets a component appended; a keyword class pattern on a non-chain class. The walrus as an annotated value is the exception; it is kept as a finding.
- A capture `_` has the name `None` in the source; the model writes that name as `Tracker.Wildcard`, the empty string, which no Python identifier equals.
- TrackerProps.WildcardChangesNothing: requires that no scope binds `None`. In the source only a keyword wildcard binds it (see Findings); the corrected keyword wildcard binds nothing.
- A Python list is an `OtherN` node, not a `TupleN`: the source has no list visitor and visits a list generically, each element at the top. A stored list's names are therefore forgotten before the assignment is resolved, and the assignment gets no target (`TrackerProps.ListTargetForgets`).
- The `_parents` counter is modelled by a `top` flag. The source only uses it to decide which node dispatches its result.
- `clean_ipython`: IPython's `TransformerManager` is external code, so the IPython blocks are not among `Block.BuiltinBlocks`. Its output filter, `_exclude_ipython_output`, is modelled.
- The regular expressions of `construct_name_pattern` are built as strings only, because the regex engine is external. `link_html` and `apply_links` are not part of this model: they rewrite HTML files.
- The final `return None` of `construct_name_pattern` cannot be reached: every link context has a pattern.
- Docutils tree mutation (node removal and replacement) is modelled as `Backref.Outcome` values.
- `Path.relative_to` and `Path` joining are a parameter function. `get_target_uri` output is given with each local object.
- Object introspection (`getattr`, `isclass`, `isroutine`, `__mro__`, `get_type_hints`) is an abstract object graph.
- Resolve.CallValueOf: a `get_type_hints` that raises (an unresolvable forward reference, say) is modelled as an unfollowable hint, so the model warns `failed_resolve` for that name. In the source the exception is not `CouldNotResolve`: it escapes `filter_and_resolve` (src/sphinx_codeautolink/extension/__init__.py:206-207), `print_exceptions` prints and re-raises it (src/sphinx_codeautolink/extension/__init__.py:45-57), and the build fails. The model does not capture that failure.
- `Resolve.Cursor`: a cursor updated in place and the previous cursor can alias. The model keeps a cursor per step, and `LocateType` may return the cursor it was given.
- `Resolve.Chain`: a chain to resolve never starts with a call marker, which holds for every name the parser makes.
- Warnings keep their subtype, message and location. Logger configuration and `warn_type` are left out.
- `Extension.Quoted`: the quoting of `repr` is modelled for module names without quote characters.
- The cache of transforms is a sequence of `(document, transforms)` pairs in dict order. `filter_and_resolve` reassigns `transform.names` in place; the model returns the filtered transforms as new values.
- The rest of the extension is not part of this model:
  - `build_inited`;
  - `autodoc_process_docstring`;
  - `merge_environments` and `purge_doc_from_environment`;
  - the directives;
  - `print_exceptions`;
  - `generate_backref_tables` for `do_nothing`;
  - the cache file I/O.
- The visitor functions below state in their own contract only the frame they keep: lower scopes, outer scopes and flags unchanged; accesses and warnings only grow. Where a lemma states what a form of the statement binds, forgets or records, its line names it; where none is named, the model states only the frame.
- Tracker.ResolvePending: states only the frame it keeps; `TrackerProps.LoadRecordsBoundName`, `TrackerProps.StoreForgets`, `TrackerProps.DelRecordsThenForgets` and `TrackerProps.ResolveBoundLoad` state its effect.
- Tracker.Dispatch: states only the frame it keeps; `TrackerProps.DispatchAssignment` states it for assignments.
- Tracker.ResolveAssignment: states only the frame it keeps; `TrackerProps.DispatchAssignment` and `TrackerProps.AssignBindsChain` state its effect.
- Tracker.ResolveTargets: states only the frame it keeps; `TrackerProps.UnpackingForgets` and `TrackerProps.ResolveOneName` state its effect.
- Tracker.ResolveElements: states only the frame it keeps; `TrackerProps.UnpackForgetsPair` states its effect.
- Tracker.ResolveTarget: states only the frame it keeps; `TrackerProps.ResolveOneName` states its effect.
- Tracker.CreateSimpleAccess: states only the frame it keeps; `TrackerProps.GlobalBindsFromOutermost` states its effect.
- Tracker.Track: states only the frame it keeps; `TrackerProps.VisitName` states it for names.
- Tracker.VisitImport: states only the frame it keeps; `TrackerProps.ImportOne`, `TrackerProps.FromImportOne`, `TrackerProps.StarImportBindsPublicNames`, `TrackerProps.FailedStarImport` and `TrackerProps.RelativeImportForgets` state its effect.
- Tracker.BindFrom: states only the frame it keeps; `TrackerProps.GlobalBindsFromOutermost` states its effect.
- Tracker.GlobalNames: states only the frame it keeps; `TrackerProps.GlobalBindsFromOutermost` states its effect.
- Tracker.NonlocalNames: states only the frame it keeps; `TrackerProps.NonlocalBindsInnermost` states its effect.
- Tracker.Visit: states only the frame it keeps; `TrackerProps.VisitKind` states the shape of its result.
- Tracker.VisitAttribute: states only the frame it keeps; `TrackerProps.LoadAttributeRecords` states its effect.
- Tracker.VisitCall: states only the frame it keeps; `TrackerProps.CallRecordsChain` states its effect for `a.b(args)`, and `TrackerProps.VisitKindCall` the shape of its result.
- Tracker.VisitAugAssign: states only the frame it keeps; `TrackerProps.AugAssignUsesAndKeeps` states its effect.
- Tracker.VisitNamedExpr: states only the frame it keeps; `TrackerProps.AnnotatedWalrusBinds` states what dispatching its result binds.
- Tracker.VisitLambda: states only the frame it keeps; `ScopeProps.LambdaKeepsScopes`, `ScopeProps.LambdaSeesModuleScopeWithoutParams` and `ScopeProps.PlainLambda` state its effect.
- Tracker.VisitClassDef: states only the frame it keeps; `ScopeProps.ClassBodyContained` states its effect.
- Tracker.VisitComp: states only the frame it keeps; `ScopeProps.CompKeepsScopes`, `ScopeProps.ComprehensionSeesInnermostScope` and `ScopeProps.CompUnfold` state its effect.
- Tracker.VisitFor: states only the frame it keeps; `TrackerProps.ForRecordsIterThenForgets` states it for `for x in a.b: pass`.
- Tracker.VisitAll: states only the frame it keeps.
- Tracker.VisitTuple: states only the frame it keeps; `TrackerProps.VisitNamePair` states it for a stored pair.
- Tracker.VisitStoreElements: states only the frame it keeps; `TrackerProps.VisitStorePair` states its result.
- Tracker.VisitAssign: states only the frame it keeps; `TrackerProps.VisitAssignUnfold`, `TrackerProps.AssignBindsChain` and `TrackerProps.UnpackingForgets` state its effect.
- Tracker.VisitAnnAssign: states only the frame it keeps; `TrackerProps.AnnotatedWalrusRaises` and `TrackerProps.AnnotatedWalrusBinds` state it for a walrus value.
- Tracker.VisitParam: states only the frame it keeps; `TrackerProps.AnnotatedParamBinds` and `TrackerProps.PlainParamForgets` state its effect.
- Tracker.VisitParams: states only the frame it keeps; `ScopeProps.InnerOfOneParam` and `ScopeProps.AnnotatedParamUsed` state it for one parameter.
- Tracker.VisitFunctionDef: states only the frame it keeps; `ScopeProps.FunctionBodyContained`, `ScopeProps.MethodsSeeModuleScope` and `ScopeProps.PlainFunctionDef` state its effect.
- Tracker.VisitGenerators: states only the frame it keeps; `ScopeProps.CompUnfold` states it as part of a comprehension.
- Tracker.ResolveAllPending: states only the frame it keeps; `TrackerProps.ResolveOneCapture` states it for one capture.
- Tracker.ResolveAllAssignments: states only the frame it keeps; `TrackerProps.ResolveOneKeyword` states it for one assignment.
- Tracker.VisitClassArguments: states only the frame it keeps; `TrackerProps.VisitMatchClassUnfold` states what it does.
- Tracker.ResolveMatched: states only the frame it keeps; `TrackerProps.VisitMatchClassUnfold` states what it does.
- Tracker.VisitMatchClass: states only the frame it keeps; `TrackerProps.PositionalCaptureForgets`, `TrackerProps.KeywordCaptureBinds` and `TrackerProps.KeywordWildcardBindsNothing` state its effect.
- Unicode: `str.isspace` is written out for the code points Python treats as whitespace. Strings are sequences of code points with no normalisation.
- `Extension.Verdicts`, `Extension.Outcomes`, `Extension.FilteredTransforms`, `Extension.SortedTops` and `Extension.Closing` are ghost functions. They are the specification the methods are proved against.

## Findings

| source | as written | input that shows it | evidently intended | confidence | as-written member | corrected member |
|---|---|---|---|---|---|---|
| src/sphinx_codeautolink/extension/resolve.py:89-94 | `locate_type` restarts at the documented base with the same components, and falls back again whenever the walk from that base reaches the same undocumented class location; the restart then repeats with equal arguments until `RecursionError` | module `m` with class `C` (`m.C`), whose attribute `D` is a class defined as `n.D`; inventory `{"m.C.D"}`; resolving `m.C.D` | the fallback is tried once per component, so the walk terminates | not executed | Resolve.FallbackRecursesForever | Resolve.LocateTypeOf |
| src/sphinx_codeautolink/parse.py:562-570 | a keyword pattern `_` becomes the target `AssignTarget([PendingAccess([Component(None, ...)])])`; with the class bound, `None` is bound, and recording its use converts an access whose only component is named `None` to a name (parse.py:264); `code_str` (parse.py:166) cannot join that name and raises `TypeError` | `import a`, then `match x:` with `case a.C(attr=_): pass` | the wildcard binds nothing, like a positional `_` | not executed | TrackerProps.KeywordWildcardAsWritten | TrackerProps.KeywordWildcardBindsNothing |
| src/sphinx_codeautolink/parse.py:526-527 | `visit_AnnAssign` hands any value to `resolve_pending_access`, which reads `components`; a walrus value is an `Assignment` and raises `AttributeError` | `x: int = (y := f)` | the value is dispatched like any other value, so the walrus binds `y` | not executed | TrackerProps.AnnotatedWalrusRaises | Tracker.AnnotatedValue |
