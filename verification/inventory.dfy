/**
 * The object inventory the extension links against
 * (`transpose_inventory` and `make_inventory` in
 * `sphinx_codeautolink/extension/__init__.py`): Sphinx's
 * `{type: {name: info}}` inventory turned into `{name: location}` for the
 * Python domain.
 */
module Inventory {
  import opened Wrappers
  import opened Text

  /** An inventory entry: project, version, location and display name. */
  datatype Info = Info(project: Option<string>, version: Option<string>, location: string, displayName: Option<string>)

  /** A Sphinx inventory: for each type, in insertion order, the named entries in insertion order. */
  type Source = seq<(string, seq<(string, Info)>)>

  /** The location stored for an entry: a URL as it is, a local file relative to the output directory (`Path.relative_to`, a parameter here). */
  function Place(info: Info, relativeTo: string -> string): string
  {
    if StartsWith(info.location, "http") then info.location else relativeTo(info.location)
  }

  /** The `(name, location)` pairs of the Python-domain types, in the order the loops visit them. */
  function PyItems(inv: Source, relativeTo: string -> string): seq<(string, string)>
  {
    if inv == [] then []
    else
      var last := inv[|inv| - 1];
      PyItems(inv[..|inv| - 1], relativeTo) + (if StartsWith(last.0, "py:") then Placed(last.1, relativeTo) else [])
  }

  function Placed(items: seq<(string, Info)>, relativeTo: string -> string): (r: seq<(string, string)>)
    ensures |r| == |items|
    ensures forall i :: 0 <= i < |items| ==> r[i] == (items[i].0, Place(items[i].1, relativeTo))
  {
    seq(|items|, i requires 0 <= i < |items| => (items[i].0, Place(items[i].1, relativeTo)))
  }

  /** `d[k] = v` for each pair in turn. */
  function Assign(d: map<string, string>, pairs: seq<(string, string)>): map<string, string>
  {
    if pairs == [] then d
    else
      var last := pairs[|pairs| - 1];
      Assign(d, pairs[..|pairs| - 1])[last.0 := last.1]
  }

  lemma {:induction false} AssignConcat(d: map<string, string>, xs: seq<(string, string)>, ys: seq<(string, string)>)
    ensures Assign(d, xs + ys) == Assign(Assign(d, xs), ys)
    decreases |ys|
  {
    if ys == [] {
      assert xs + ys == xs;
    } else {
      assert (xs + ys)[..|xs + ys| - 1] == xs + ys[..|ys| - 1];
      AssignConcat(d, xs, ys[..|ys| - 1]);
    }
  }

  /**
   * After the assignments a key is present exactly when it was already or
   * some pair names it; its value is that of the last pair naming it, or the
   * old one when none does.
   */
  lemma {:induction false} AssignLast(d: map<string, string>, pairs: seq<(string, string)>, k: string)
    ensures k in Assign(d, pairs) <==> k in d || exists i :: 0 <= i < |pairs| && pairs[i].0 == k
    ensures forall i :: 0 <= i < |pairs| && pairs[i].0 == k && (forall j :: i < j < |pairs| ==> pairs[j].0 != k) ==>
      Assign(d, pairs)[k] == pairs[i].1
    ensures (forall i :: 0 <= i < |pairs| ==> pairs[i].0 != k) && k in d ==> Assign(d, pairs)[k] == d[k]
    decreases |pairs|
  {
    if pairs != [] {
      var front := pairs[..|pairs| - 1];
      AssignLast(d, front, k);
      assert forall i :: 0 <= i < |front| ==> front[i] == pairs[i];
      if exists i :: 0 <= i < |pairs| && pairs[i].0 == k {
        var i :| 0 <= i < |pairs| && pairs[i].0 == k;
        if i < |front| {
          assert front[i].0 == k;
        }
      }
    }
  }

  /** `transpose_inventory(inv, relative_to)`: the nested loops over types and their entries. */
  method TransposeInventory(inv: Source, relativeTo: string -> string) returns (transposed: map<string, string>)
    ensures transposed == Assign(map[], PyItems(inv, relativeTo))
  {
    transposed := map[];
    for t := 0 to |inv|
      invariant transposed == Assign(map[], PyItems(inv[..t], relativeTo))
    {
      assert inv[..t + 1][..t] == inv[..t];
      ghost var done := PyItems(inv[..t], relativeTo);
      var (type_, items) := inv[t];
      if !StartsWith(type_, "py:") {
        assert PyItems(inv[..t + 1], relativeTo) == done + [] == done;
        continue;
      }
      assert PyItems(inv[..t + 1], relativeTo) == done + Placed(items, relativeTo);
      ghost var before := transposed;
      for j := 0 to |items|
        invariant transposed == Assign(before, Placed(items[..j], relativeTo))
      {
        var (item, info) := items[j];
        var location := info.location;
        if !StartsWith(location, "http") {
          location := relativeTo(location);
        }
        assert Placed(items[..j + 1], relativeTo)[..j] == Placed(items[..j], relativeTo);
        transposed := transposed[item := location];
      }
      assert items[..|items|] == items;
      AssignConcat(map[], done, Placed(items, relativeTo));
    }
    assert inv[..|inv|] == inv;
  }

  /** Some pair of `pairs` has the name `k`. */
  predicate Names(pairs: seq<(string, string)>, k: string)
  {
    exists i :: 0 <= i < |pairs| && pairs[i].0 == k
  }

  /** Some Python-domain type of `inv` holds an entry named `k`. */
  predicate Listed(inv: Source, k: string)
  {
    exists t, j :: 0 <= t < |inv| && StartsWith(inv[t].0, "py:") && 0 <= j < |inv[t].1| && inv[t].1[j].0 == k
  }

  /**
   * Only the Python-domain types contribute; each name maps to the location
   * of its last entry among them, in the order the types and their entries
   * are listed.
   */
  lemma Transposed(inv: Source, relativeTo: string -> string, k: string)
    ensures k in Assign(map[], PyItems(inv, relativeTo)) <==> Listed(inv, k)
    ensures var ps := PyItems(inv, relativeTo);
      forall i :: 0 <= i < |ps| && ps[i].0 == k && (forall j :: i < j < |ps| ==> ps[j].0 != k) ==>
        k in Assign(map[], ps) && Assign(map[], ps)[k] == ps[i].1
  {
    AssignLast(map[], PyItems(inv, relativeTo), k);
    PyItemsNames(inv, relativeTo, k);
  }

  lemma NamesConcat(xs: seq<(string, string)>, ys: seq<(string, string)>, k: string)
    ensures Names(xs + ys, k) <==> Names(xs, k) || Names(ys, k)
  {
    var zs := xs + ys;
    if Names(zs, k) {
      var i :| 0 <= i < |zs| && zs[i].0 == k;
      if i < |xs| {
        assert xs[i].0 == k;
      } else {
        assert ys[i - |xs|].0 == k;
      }
    }
    if Names(xs, k) {
      var i :| 0 <= i < |xs| && xs[i].0 == k;
      assert zs[i].0 == k;
    }
    if Names(ys, k) {
      var i :| 0 <= i < |ys| && ys[i].0 == k;
      assert zs[|xs| + i].0 == k;
    }
  }

  /** Some entry of `items` has the name `k`. */
  predicate Holds(items: seq<(string, Info)>, k: string)
  {
    exists j :: 0 <= j < |items| && items[j].0 == k
  }

  lemma ListedLast(inv: Source, k: string)
    requires inv != []
    ensures Listed(inv, k) <==>
      Listed(inv[..|inv| - 1], k) || (StartsWith(inv[|inv| - 1].0, "py:") && Holds(inv[|inv| - 1].1, k))
  {
    var front := inv[..|inv| - 1];
    if Listed(front, k) {
      var t, j :| 0 <= t < |front| && StartsWith(front[t].0, "py:") && 0 <= j < |front[t].1| && front[t].1[j].0 == k;
      assert inv[t] == front[t];
    }
    if Listed(inv, k) {
      var t, j :| 0 <= t < |inv| && StartsWith(inv[t].0, "py:") && 0 <= j < |inv[t].1| && inv[t].1[j].0 == k;
      if t < |front| {
        assert front[t] == inv[t];
      }
    }
  }

  lemma {:induction false} PyItemsNames(inv: Source, relativeTo: string -> string, k: string)
    ensures Names(PyItems(inv, relativeTo), k) <==> Listed(inv, k)
    decreases |inv|
  {
    if inv != [] {
      var front := inv[..|inv| - 1];
      var last := inv[|inv| - 1];
      PyItemsNames(front, relativeTo, k);
      ListedLast(inv, k);
      var ys: seq<(string, string)> := if StartsWith(last.0, "py:") then Placed(last.1, relativeTo) else [];
      NamesConcat(PyItems(front, relativeTo), ys, k);
      if StartsWith(last.0, "py:") {
        if Names(ys, k) {
          var i :| 0 <= i < |ys| && ys[i].0 == k;
          assert last.1[i].0 == k;
        }
        if Holds(last.1, k) {
          var j :| 0 <= j < |last.1| && last.1[j].0 == k;
          assert ys[j].0 == k;
        }
      }
    }
  }

  /**
   * The local inventory `make_inventory` builds: one `py:class` type whose
   * entries are the Python domain's objects, each with the path of its page
   * and anchor in the output directory.
   */
  function LocalSource(objects: seq<(string, string)>): Source
  {
    [("py:class", seq(|objects|, i requires 0 <= i < |objects| => (objects[i].0, Info(None, None, objects[i].1, None))))]
  }

  /** `make_inventory`: the transposed intersphinx inventory, updated with the transposed local one. */
  function MakeInventory(inter: Source, objects: seq<(string, string)>, relativeTo: string -> string): (r: map<string, string>)
    ensures forall k :: Listed(inter, k) && (forall i :: 0 <= i < |objects| ==> objects[i].0 != k) ==>
      var xs := Assign(map[], PyItems(inter, relativeTo));
      k in xs && k in r && r[k] == xs[k]
  {
    var xs := PyItems(inter, relativeTo);
    var ys := PyItems(LocalSource(objects), relativeTo);
    assert forall k :: Listed(inter, k) && (forall i :: 0 <= i < |objects| ==> objects[i].0 != k) ==>
      k in Assign(map[], xs) && k !in Assign(map[], ys) by {
      LocalItems(objects, relativeTo);
      forall k | Listed(inter, k) && (forall i :: 0 <= i < |objects| ==> objects[i].0 != k)
        ensures k in Assign(map[], xs) && k !in Assign(map[], ys)
      {
        Transposed(inter, relativeTo, k);
        AssignLast(map[], ys, k);
      }
    }
    Assign(map[], xs) + Assign(map[], ys)
  }

  /** The local inventory transposes to the objects themselves, each with its placed location. */
  lemma LocalItems(objects: seq<(string, string)>, relativeTo: string -> string)
    ensures var ys := PyItems(LocalSource(objects), relativeTo);
      && |ys| == |objects|
      && forall i :: 0 <= i < |objects| ==> ys[i] == (objects[i].0, Place(Info(None, None, objects[i].1, None), relativeTo))
  {
    var local := LocalSource(objects);
    assert StartsWith("py:class", "py:") by {
      assert "py:class"[..3] == "py:";
    }
    assert local[..0] == [] && local[|local| - 1].0 == "py:class";
    assert PyItems(local[..0], relativeTo) == [];
    assert PyItems(local, relativeTo) == [] + Placed(local[0].1, relativeTo);
  }

  /**
   * A name is in the inventory exactly when intersphinx or the local objects
   * list it; a local object overrides intersphinx, and the last object of a
   * name gives its location.
   */
  lemma LocalOverrides(inter: Source, objects: seq<(string, string)>, relativeTo: string -> string, k: string)
    ensures k in MakeInventory(inter, objects, relativeTo) <==>
      Listed(inter, k) || exists i :: 0 <= i < |objects| && objects[i].0 == k
    ensures forall i :: 0 <= i < |objects| && objects[i].0 == k && (forall j :: i < j < |objects| ==> objects[j].0 != k) ==>
      MakeInventory(inter, objects, relativeTo)[k] == Place(Info(None, None, objects[i].1, None), relativeTo)
  {
    var ys := PyItems(LocalSource(objects), relativeTo);
    LocalItems(objects, relativeTo);
    Transposed(inter, relativeTo, k);
    AssignLast(map[], ys, k);
    if exists i :: 0 <= i < |objects| && objects[i].0 == k {
      var i :| 0 <= i < |objects| && objects[i].0 == k;
      assert ys[i].0 == k;
    }
  }
}
