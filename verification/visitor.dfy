/**
 * The scope machinery of `ImportTrackerVisitor` as an object whose fields
 * are updated in place: the scope stacks, the flags, the recorded names and
 * the warning log. Every method is proved to leave the object in the state
 * the functional model of the same operation computes.
 */
module TrackerVisitor {
  import opened Wrappers
  import opened Parse
  import opened Tracker
  import Text

  /** `to_name` distributes over concatenation. */
  lemma ToNamesAppend(xs: seq<Access>, ys: seq<Access>)
    requires Recorded(xs) && Recorded(ys) && Recorded(xs + ys)
    ensures ToNames(xs + ys) == ToNames(xs) + ToNames(ys)
  {
  }

  /** Converting the recorded accesses gives what `save_access` appends: the names of the split, or the one name of the whole access. */
  lemma SavedNames(s: State, a: Access)
    requires |a.components| >= 1
    ensures ToNames(SavedAccesses(s, a)) == if s.noSplit then [ToName(a)] else SplitNames(a)
  {
  }

  /** The loop of `visit_Global` over one more name. */
  lemma GlobalNamesNext(s: State, names: seq<string>, i: nat, imports: Scope, line: int)
    requires i < |names|
    ensures GlobalNames(s, names[i..], imports, line) ==
      GlobalNames(if names[i] in imports then BindFrom(s, names[i], imports, line) else Tracker.OverwriteName(s, names[i]), names[i + 1..], imports, line)
  {
    assert names[i..][0] == names[i] && names[i..][1..] == names[i + 1..];
  }

  /** The loop of `visit_Import` over one more alias. */
  lemma ImportNamesNext(s: State, aliases: seq<Alias>, i: nat, star: bool, prefix: string, prefixComps: seq<Component>, line: int, endLine: int)
    requires i < |aliases|
    ensures var al := aliases[i];
      var s1 := if star then s
        else Tracker.SaveAccess(s, Access(ImportTarget, [], Comps(Text.Split(al.name, '.'), line, endLine, Load), prefixComps));
      Tracker.ImportNames(s, aliases[i..], star, prefix, prefixComps, line, endLine)
        == Tracker.ImportNames(Tracker.AssignName(s1, BoundName(al), ImportChain(al, prefix, line, endLine)), aliases[i + 1..], star, prefix, prefixComps, line, endLine)
  {
    assert aliases[i..][0] == aliases[i] && aliases[i..][1..] == aliases[i + 1..];
  }

  class ImportTrackerVisitor {
    var accessed: seq<Name>
    var inAugassign: bool
    var noSplit: bool
    /** `pseudo_scopes_stack` */
    var scopes: Stack
    /** `outer_scopes_stack` */
    var outer: seq<Scope>
    /** The warnings logged so far. */
    var warnings: seq<string>
    /** The accesses behind `accessed`, in the order they were saved. */
    ghost var recorded: seq<Access>

    ghost predicate Valid()
      reads this
    {
      Recorded(recorded) && accessed == ToNames(recorded)
    }

    /** The fields, as a value of the functional model. */
    ghost function Snapshot(): State
      reads this
    {
      State(recorded, inAugassign, noSplit, scopes, outer, warnings)
    }

    /** `__init__`: nothing recorded, one scope holding the builtins, no outer scopes. */
    constructor(env: Env)
      ensures Valid() && Snapshot() == Initial(env, [])
      ensures accessed == []
    {
      accessed := [];
      inAugassign := false;
      noSplit := false;
      scopes := [BuiltinScope(env)];
      outer := [];
      warnings := [];
      recorded := [];
    }

    /** `overwrite_name`: pops `name` from the innermost scope. */
    method OverwriteName(name: string)
      requires Valid()
      modifies this
      ensures Valid() && Snapshot() == Tracker.OverwriteName(old(Snapshot()), name)
      ensures accessed == old(accessed)
    {
      var top := scopes[|scopes| - 1];
      scopes := scopes[..|scopes| - 1] + [top - {name}];
    }

    /** `assign_name`: forget, then bind `name` in the innermost scope. */
    method AssignName(name: string, components: seq<Component>)
      requires Valid()
      modifies this
      ensures Valid() && Snapshot() == Tracker.AssignName(old(Snapshot()), name, components)
      ensures accessed == old(accessed)
    {
      OverwriteName(name);
      var top := scopes[|scopes| - 1];
      scopes := scopes[..|scopes| - 1] + [top[name := components]];
    }

    /** `save_access`: appends the split names, or the one name when splitting is off. */
    method SaveAccess(a: Access)
      requires Valid() && |a.components| >= 1
      modifies this
      ensures Valid() && Snapshot() == Tracker.SaveAccess(old(Snapshot()), a)
      ensures accessed == old(accessed) + (if noSplit then [ToName(a)] else SplitNames(a))
    {
      var names: seq<Name>;
      if noSplit {
        names := [ToName(a)];
      } else {
        names := Parse.Split(a);
      }
      SavedNames(Snapshot(), a);
      RecordedAppend(recorded, SavedAccesses(Snapshot(), a));
      ToNamesAppend(recorded, SavedAccesses(Snapshot(), a));
      accessed := accessed + names;
      recorded := recorded + SavedAccesses(Snapshot(), a);
    }

    /** `create_access`: records and returns an access when `key` is bound in the innermost scope. */
    method CreateAccess(key: string, components: Chain) returns (r: Option<Access>)
      requires Valid()
      modifies this
      ensures Valid() && (Snapshot(), r) == Tracker.CreateAccess(old(Snapshot()), key, components)
    {
      var top := scopes[|scopes| - 1];
      if key !in top {
        return None;
      }
      var a := Access(NoneContext, top[key], components, []);
      SaveAccess(a);
      return Some(a);
    }

    /** `resolve_pending_access` */
    method ResolvePending(c: Chain) returns (r: Option<Access>)
      requires Valid()
      modifies this
      ensures Valid() && (Snapshot(), r) == Tracker.ResolvePending(old(Snapshot()), c)
    {
      var base := c[0];
      if base.context == Store && !inAugassign {
        OverwriteName(base.name);
        return None;
      }
      r := CreateAccess(base.name, c);
      if base.context == Del {
        OverwriteName(base.name);
      }
    }

    /** `create_simple_access` */
    method CreateSimpleAccess(name: string, line: int)
      requires Valid()
      modifies this
      ensures Valid() && Snapshot() == Tracker.CreateSimpleAccess(old(Snapshot()), name, line)
    {
      var _ := CreateAccess(name, [Component(name, line, line, Load)]);
    }

    /** The loop of `visit_Import` over the imported names. */
    method ImportNames(aliases: seq<Alias>, star: bool, prefix: string, prefixComps: seq<Component>, line: int, endLine: int)
      requires Valid()
      modifies this
      ensures Valid() && Snapshot() == Tracker.ImportNames(old(Snapshot()), aliases, star, prefix, prefixComps, line, endLine)
    {
      var i := 0;
      while i < |aliases|
        invariant 0 <= i <= |aliases| && Valid()
        invariant Tracker.ImportNames(Snapshot(), aliases[i..], star, prefix, prefixComps, line, endLine)
          == Tracker.ImportNames(old(Snapshot()), aliases, star, prefix, prefixComps, line, endLine)
      {
        ghost var before := Snapshot();
        ImportNamesNext(before, aliases, i, star, prefix, prefixComps, line, endLine);
        ImportName(aliases[i], star, prefix, prefixComps, line, endLine);
        i := i + 1;
      }
    }

    /** The loop body of `visit_Import` for one alias: record the imported path unless it is a star import, then bind the alias. */
    method ImportName(al: Alias, star: bool, prefix: string, prefixComps: seq<Component>, line: int, endLine: int)
      requires Valid()
      modifies this
      ensures Valid()
      ensures var s1 := if star then old(Snapshot())
          else Tracker.SaveAccess(old(Snapshot()), Access(ImportTarget, [], Comps(Text.Split(al.name, '.'), line, endLine, Load), prefixComps));
        Snapshot() == Tracker.AssignName(s1, BoundName(al), ImportChain(al, prefix, line, endLine))
    {
      if !star {
        SaveAccess(Access(ImportTarget, [], Comps(Text.Split(al.name, '.'), line, endLine, Load), prefixComps));
      }
      AssignName(BoundName(al), ImportChain(al, prefix, line, endLine));
    }

    /** `visit_Import` (empty prefix) and the absolute branch of `visit_ImportFrom` (prefix `module.`). */
    method VisitImport(env: Env, moduleName: string, names: seq<Alias>, prefix: string, line: int, endLine: int)
      requires Valid() && |names| >= 1
      modifies this
      ensures Valid() && Snapshot() == Tracker.VisitImport(env, old(Snapshot()), moduleName, names, prefix, line, endLine)
    {
      var star := names[0].name == "*";
      var aliases := names;
      if star {
        if moduleName in env.modules {
          aliases := Unaliases(PublicNames(env.modules[moduleName]));
        } else {
          warnings := warnings + [StarImportWarning(moduleName)];
          aliases := [];
        }
      }
      var prefixComps := if prefix != "" then Comps(Text.Split(RStrip(prefix, '.'), '.'), line, endLine, Load) else [];
      if prefix != "" {
        SaveAccess(Access(ImportFrom, [], prefixComps, []));
      }
      ImportNames(aliases, star, prefix, prefixComps, line, endLine);
    }

    /** The relative branch of `visit_ImportFrom`: forget each imported name. */
    method OverwriteAll(names: seq<string>)
      requires Valid()
      modifies this
      ensures Valid() && Snapshot() == Tracker.OverwriteAll(old(Snapshot()), names)
    {
      var i := 0;
      while i < |names|
        invariant 0 <= i <= |names| && Valid()
        invariant Tracker.OverwriteAll(Snapshot(), names[i..]) == Tracker.OverwriteAll(old(Snapshot()), names)
      {
        assert names[i..][1..] == names[i + 1..];
        OverwriteName(names[i]);
        i := i + 1;
      }
    }

    /** One name of `visit_Global`: forget it, then copy it in from the module scope when bound there. */
    method GlobalName(name: string, imports: Scope, line: int)
      requires Valid()
      modifies this
      ensures Valid() && outer == old(outer)
      ensures Snapshot() == if name in imports then BindFrom(old(Snapshot()), name, imports, line) else Tracker.OverwriteName(old(Snapshot()), name)
    {
      OverwriteName(name);
      if name in imports {
        AssignName(name, imports[name]);
        CreateSimpleAccess(name, line);
      }
    }

    /** `visit_Global`: each name is forgotten, then copied in from the module scope when bound there. */
    method VisitGlobal(names: seq<string>, line: int)
      requires Valid()
      modifies this
      ensures Valid()
      ensures Snapshot() == if |old(outer)| == 0 then old(Snapshot()) else GlobalNames(old(Snapshot()), names, old(outer)[0], line)
    {
      if |outer| == 0 {
        return;
      }
      var imports := outer[0];
      for i := 0 to |names|
        invariant Valid() && outer == old(outer)
        invariant GlobalNames(Snapshot(), names[i..], imports, line) == GlobalNames(old(Snapshot()), names, imports, line)
      {
        GlobalNamesNext(Snapshot(), names, i, imports, line);
        GlobalName(names[i], imports, line);
      }
      assert names[|names|..] == [];
    }

    /** `visit_Nonlocal`: each name is forgotten, then copied in from the innermost outer scope (after the outermost) that binds it. */
    method VisitNonlocal(names: seq<string>, line: int)
      requires Valid()
      modifies this
      ensures Valid()
      ensures Snapshot() == NonlocalNames(old(Snapshot()), names, if |old(outer)| == 0 then [] else old(outer)[1..], line)
    {
      var stack := if |outer| == 0 then [] else outer[1..];
      var i := 0;
      while i < |names|
        invariant 0 <= i <= |names| && Valid() && outer == old(outer)
        invariant NonlocalNames(Snapshot(), names[i..], stack, line) == NonlocalNames(old(Snapshot()), names, stack, line)
      {
        var name := names[i];
        assert names[i..][0] == name && names[i..][1..] == names[i + 1..];
        ghost var s0 := Snapshot();
        ghost var s1 := match Innermost(stack, name)
          case Some(imports) => BindFrom(s0, name, imports, line)
          case None => Tracker.OverwriteName(s0, name);
        assert NonlocalNames(s0, names[i..], stack, line) == NonlocalNames(s1, names[i + 1..], stack, line);
        OverwriteName(name);
        var k := FindInnermost(stack, name);
        if k > 0 {
          AssignName(name, stack[k - 1][name]);
          CreateSimpleAccess(name, line);
        }
        assert Snapshot() == s1;
        i := i + 1;
      }
    }

    /** The search of `visit_Nonlocal`: one past the index of the innermost scope of `stack` that binds `name`, or 0. */
    static method FindInnermost(stack: seq<Scope>, name: string) returns (k: nat)
      ensures k <= |stack|
      ensures k > 0 ==> name in stack[k - 1]
      ensures Innermost(stack, name) == if k == 0 then None else Some(stack[k - 1])
    {
      k := |stack|;
      while k > 0
        invariant 0 <= k <= |stack|
        invariant Innermost(stack, name) == Innermost(stack[..k], name)
      {
        if name in stack[k - 1] {
          return;
        }
        assert stack[..k][..k - 1] == stack[..k - 1];
        k := k - 1;
      }
    }
  }
}
