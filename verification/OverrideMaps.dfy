/**
 * Preparing the override file for the merge, on the nested maps that are edited in place (pkg/configgen/generator.go).
 */
module OverrideMaps {
  import opened Common
  import opened Overrides

  datatype Value = Nil | Plain(value: Yaml) | Nested(node: Map)

  class Map {
    var entries: map<string, Value>
    ghost var repr: set<Map>

    constructor ()
      ensures entries == map[] && repr == {this}
    {
      entries, repr := map[], {this};
    }
  }

  predicate IsLeaf(v: Value, y: Yaml) {
    if v.Nil? then y.Null? else v.Plain? && v.value == y && !y.Null? && !y.Mapping?
  }

  /** The maps below `node` form a tree, and its content is `y`. */
  ghost predicate Holds(node: Map, y: Yaml)
    reads node, node.repr
    decreases y
  {
    && node in node.repr && y.Mapping? && node.entries.Keys == y.entries.Keys
    && Separate(node)
    && forall k | k in y.entries ::
         if node.entries[k].Nested? then node.entries[k].node in node.repr && Holds(node.entries[k].node, y.entries[k])
         else IsLeaf(node.entries[k], y.entries[k])
  }

  /** The maps under different keys have no part in common. */
  ghost predicate Separate(node: Map)
    reads node, node.repr
  {
    && (forall k | k in node.entries && node.entries[k].Nested? ::
          node.entries[k].node in node.repr && node.entries[k].node.repr <= node.repr - {node})
    && forall j, k | j in node.entries && k in node.entries && j != k ::
         node.entries[j].Nested? && node.entries[k].Nested? ==>
           && node.entries[j].node in node.repr && node.entries[k].node in node.repr
           && node.entries[j].node.repr !! node.entries[k].node.repr
  }

  method Delete(node: Map, ghost y: Yaml, key: string)
    requires Holds(node, y)
    modifies node`entries
    ensures node.entries == old(node.entries) - {key}
    ensures Holds(node, Mapping(y.entries - {key}))
  {
    node.entries := node.entries - {key};
    forall k | k in node.entries && node.entries[k].Nested? ensures Holds(node.entries[k].node, y.entries[k]) {
      assert old(Holds(node.entries[k].node, y.entries[k]));
    }
  }

  /** The tree when only the entries outside `remaining` have been gone through. */
  function Midway(m: Block, remaining: set<string>): Block {
    map k | k in m && (k in remaining || HasLeaf(m[k])) :: if k in remaining then m[k] else Pruned(m[k])
  }

  lemma MidwayStep(m: Block, remaining: set<string>, key: string)
    requires key in m && key in remaining
    ensures key in Midway(m, remaining) && Midway(m, remaining)[key] == m[key]
    ensures !HasLeaf(m[key]) ==> Midway(m, remaining) - {key} == Midway(m, remaining - {key})
    ensures HasLeaf(m[key]) ==> Midway(m, remaining)[key := Pruned(m[key])] == Midway(m, remaining - {key})
  {
  }

  lemma MidwayEnds(m: Block)
    ensures Midway(m, m.Keys) == m && Mapping(Midway(m, {})) == Pruned(Mapping(m))
  {
  }

  /** Cleans the map below one entry; those below the others stay as they were. */
  method CleanChild(node: Map, ghost y: Yaml, key: string, child: Map, ghost whole: Yaml)
    requires Holds(node, y) && key in node.entries && node.entries[key] == Nested(child)
    requires whole.Mapping? && key in whole.entries && whole.entries[key] == y.entries[key]
    modifies child.repr
    ensures forall n | n in old(node.repr) :: n.repr == old(n.repr)
    ensures Holds(node, Mapping(y.entries[key := Pruned(y.entries[key])]))
    ensures Holds(child, Pruned(y.entries[key]))
    decreases whole, 0
  {
    RemoveEmptyMaps(child, whole.entries[key]);
    forall k | k in node.entries && k != key && node.entries[k].Nested?
      ensures Holds(node.entries[k].node, y.entries[k])
    {
      var other := node.entries[k].node;
      assert old(Holds(other, y.entries[k]));
    }
  }

  method RemoveEmptyMaps(m: Map, ghost y: Yaml)
    requires Holds(m, y)
    modifies m.repr
    ensures forall n | n in old(m.repr) :: n.repr == old(n.repr)
    ensures Holds(m, Pruned(y))
    decreases y, 2
  {
    var remaining := m.entries.Keys;
    MidwayEnds(y.entries);
    while remaining != {}
      invariant remaining <= y.entries.Keys
      invariant forall n | n in old(m.repr) :: n.repr == old(n.repr)
      invariant Holds(m, Mapping(Midway(y.entries, remaining)))
      decreases remaining
    {
      var key := AnyKey(remaining);
      ghost var now := Mapping(Midway(y.entries, remaining));
      MidwayStep(y.entries, remaining, key);
      CleanEntry(m, now, key, y);
      remaining := remaining - {key};
    }
  }

  /** Removes one entry, or what is empty below it. */
  method CleanEntry(m: Map, ghost y: Yaml, key: string, ghost whole: Yaml)
    requires Holds(m, y) && key in m.entries
    requires whole.Mapping? && key in whole.entries && whole.entries[key] == y.entries[key]
    modifies m.repr
    ensures forall n | n in old(m.repr) :: n.repr == old(n.repr)
    ensures Holds(m,
      Mapping(if HasLeaf(y.entries[key]) then y.entries[key := Pruned(y.entries[key])] else y.entries - {key}))
    decreases whole, 1
  {
    if m.entries[key].Nil? {
      Delete(m, y, key);
    } else if m.entries[key].Nested? {
      var nested := m.entries[key].node;
      CleanChild(m, y, key, nested, whole);
      EmptyIffNoLeaf(y.entries[key]);
      if |nested.entries| == 0 {
        ghost var cleaned := y.entries[key := Pruned(y.entries[key])];
        Delete(m, Mapping(cleaned), key);
        assert cleaned - {key} == y.entries - {key};
      }
    } else {
      assert y.entries[key := Pruned(y.entries[key])] == y.entries;
    }
  }

  // ---- Spelling out an allowlist ----

  method Put(node: Map, ghost y: Yaml, key: string, child: Map, ghost v: Yaml)
    requires Holds(node, y) && Holds(child, v) && node.repr !! child.repr
    modifies node
    ensures node.entries == old(node.entries)[key := Nested(child)] && node.repr == old(node.repr) + child.repr
    ensures Holds(node, Mapping(y.entries[key := v]))
  {
    node.entries := node.entries[key := Nested(child)];
    node.repr := node.repr + child.repr;
    assert Separate(node);
    forall k | k in node.entries && k != key && node.entries[k].Nested?
      ensures Holds(node.entries[k].node, y.entries[k])
    {
      assert old(Holds(node.entries[k].node, y.entries[k]));
    }
  }

  method Disable(overrides: Map, ghost y: Yaml, name: string)
    requires Holds(overrides, y)
    modifies overrides
    ensures fresh(overrides.repr - old(overrides.repr)) && old(overrides.repr) <= overrides.repr
    ensures Holds(overrides, Mapping(y.entries[name := Mapping(map[ENABLED := Flag(false)])]))
  {
    var entry := new Map();
    entry.entries := map[ENABLED := Plain(Flag(false))];
    Put(overrides, y, name, entry, Mapping(map[ENABLED := Flag(false)]));
  }

  /** Every name that is not listed yet gets its own new entry. */
  method DisableUnlisted(overrides: Map, ghost y: Yaml, names: seq<string>)
    requires Holds(overrides, y)
    modifies overrides
    ensures fresh(overrides.repr - old(overrides.repr)) && old(overrides.repr) <= overrides.repr
    ensures Holds(overrides, Mapping(y.entries + Disabling(Elements(names) - y.entries.Keys)))
  {
    ghost var before := y.entries;
    ghost var now := before;
    assert before + Disabling(Elements(names[..0]) - before.Keys) == before;
    for i := 0 to |names|
      invariant now == before + Disabling(Elements(names[..i]) - before.Keys)
      invariant fresh(overrides.repr - old(overrides.repr)) && old(overrides.repr) <= overrides.repr
      invariant Holds(overrides, Mapping(now))
    {
      assert Elements(names[..i + 1]) == Elements(names[..i]) + {names[i]};
      DisablingOneMore(before, Elements(names[..i]), names[i]);
      if names[i] !in overrides.entries {
        Disable(overrides, Mapping(now), names[i]);
        now := now[names[i] := Mapping(map[ENABLED := Flag(false)])];
      }
    }
    assert names[..|names|] == names;
  }

  /** The same below an entry of `models`, whose own tree then holds the longer list. */
  method FillOverrides(models: Map, ghost y: Yaml, overrides: Map, names: seq<string>)
    requires Holds(models, y) && OVERRIDES in models.entries && models.entries[OVERRIDES] == Nested(overrides)
    modifies overrides, models`repr
    ensures models.entries == old(models.entries)
    ensures fresh(models.repr - old(models.repr)) && old(models.repr) <= models.repr
    ensures var before := BlockOf(y.entries[OVERRIDES]);
      Holds(models, Mapping(y.entries[OVERRIDES := Mapping(before + Disabling(Elements(names) - before.Keys))]))
  {
    DisableUnlisted(overrides, y.entries[OVERRIDES], names);
    models.repr := models.repr + overrides.repr;
    forall k | k in models.entries && k != OVERRIDES && models.entries[k].Nested?
      ensures Holds(models.entries[k].node, y.entries[k])
    {
      assert old(Holds(models.entries[k].node, y.entries[k]));
    }
  }

  /** The models map once its allowlist, if it is one, is spelled out. */
  function ExpandedModels(models: Block, names: seq<string>): Block {
    var entries := EntriesOf(models);
    (models - {DEFAULT_ENABLED})[OVERRIDES := Mapping(entries + Disabling(Elements(names) - entries.Keys))]
  }

  /** The map of overrides below `models`, a new one if there is none. */
  method OverridesOf(models: Map, ghost y: Yaml) returns (overrides: Map)
    requires Holds(models, y)
    modifies models
    ensures fresh(models.repr - old(models.repr)) && old(models.repr) <= models.repr
    ensures OVERRIDES in models.entries && models.entries[OVERRIDES] == Nested(overrides)
    ensures overrides in models.repr && (overrides in old(models.repr) || fresh(overrides)) && overrides != models
    ensures Holds(models, Mapping(y.entries[OVERRIDES := Mapping(EntriesOf(y.entries))]))
  {
    if OVERRIDES in models.entries && models.entries[OVERRIDES].Nested? {
      overrides := models.entries[OVERRIDES].node;
      assert y.entries[OVERRIDES := Mapping(EntriesOf(y.entries))] == y.entries;
    } else {
      overrides := new Map();
      Put(models, y, OVERRIDES, overrides, Mapping(map[]));
    }
  }

  method ExpandModels(models: Map, ghost y: Yaml, names: seq<string>)
    requires Holds(models, y)
    modifies models.repr
    ensures fresh(models.repr - old(models.repr)) && old(models.repr) <= models.repr
    ensures Holds(models, Mapping(ExpandedModels(y.entries, names)))
  {
    var overrides := OverridesOf(models, y);
    ghost var entries := EntriesOf(y.entries);
    FillOverrides(models, Mapping(y.entries[OVERRIDES := Mapping(entries)]), overrides, names);
    ghost var now := y.entries[OVERRIDES := Mapping(entries + Disabling(Elements(names) - entries.Keys))];
    assert now == y.entries[OVERRIDES := Mapping(entries)][OVERRIDES := now[OVERRIDES]];
    Delete(models, Mapping(now), DEFAULT_ENABLED);
    assert now - {DEFAULT_ENABLED} == ExpandedModels(y.entries, names);
  }

  method ExpandDoc(doc: Map, ghost y: Yaml, models: Map, names: seq<string>)
    requires Holds(doc, y) && MODELS in doc.entries && doc.entries[MODELS] == Nested(models)
    modifies doc.repr
    ensures Holds(doc, Mapping(y.entries[MODELS := Mapping(ExpandedModels(BlockOf(y.entries[MODELS]), names))]))
  {
    ExpandModels(models, y.entries[MODELS], names);
    doc.repr := doc.repr + models.repr;
    assert Separate(doc);
    forall k | k in doc.entries && k != MODELS && doc.entries[k].Nested?
      ensures Holds(doc.entries[k].node, y.entries[k])
    {
      assert old(Holds(doc.entries[k].node, y.entries[k]));
    }
  }

  lemma FlagHeld(node: Map, y: Yaml, key: string, b: bool)
    requires Holds(node, y)
    ensures key in node.entries && node.entries[key] == Plain(Flag(b)) <==> Field(y.entries, key) == Flag(b)
  {
  }

  method ExpandDefaultEnabled(doc: Map, ghost y: Yaml, discovered: Option<seq<string>>)
    requires Holds(doc, y)
    modifies doc.repr
    ensures Holds(doc, Mapping(Expanded(y.entries, discovered)))
  {
    if MODELS !in doc.entries || !doc.entries[MODELS].Nested? { return; }
    var models := doc.entries[MODELS].node;
    FlagHeld(models, y.entries[MODELS], DEFAULT_ENABLED, false);
    if DEFAULT_ENABLED !in models.entries || models.entries[DEFAULT_ENABLED] != Plain(Flag(false)) { return; }
    if discovered.None? { return; }
    ExpandDoc(doc, y, models, discovered.value);
  }

  /** A parsed document as fresh maps. */
  method Load(y: Yaml) returns (m: Map)
    requires y.Mapping?
    ensures fresh(m.repr) && Holds(m, y)
    decreases y
  {
    m := new Map();
    var remaining := y.entries.Keys;
    ghost var now: Block := map[];
    while remaining != {}
      invariant remaining <= y.entries.Keys
      invariant now == map k | k in y.entries && k !in remaining :: y.entries[k]
      invariant fresh(m.repr) && Holds(m, Mapping(now))
      decreases remaining
    {
      var key := AnyKey(remaining);
      remaining := remaining - {key};
      var value := y.entries[key];
      if value.Mapping? {
        var child := Load(value);
        Put(m, Mapping(now), key, child, value);
      } else {
        PutLeaf(m, Mapping(now), key, if value.Null? then Nil else Plain(value), value);
      }
      now := now[key := value];
    }
    assert now == y.entries;
  }

  method PutLeaf(node: Map, ghost y: Yaml, key: string, leaf: Value, ghost v: Yaml)
    requires Holds(node, y) && !leaf.Nested? && IsLeaf(leaf, v)
    modifies node`entries
    ensures Holds(node, Mapping(y.entries[key := v]))
  {
    node.entries := node.entries[key := leaf];
    assert Separate(node);
    forall k | k in node.entries && k != key && node.entries[k].Nested?
      ensures Holds(node.entries[k].node, y.entries[k])
    {
      assert old(Holds(node.entries[k].node, y.entries[k]));
    }
  }

  /** Loading a document and preparing it in place leaves maps that hold the prepared document. */
  method Prepare(doc: Block, discovered: Option<seq<string>>) returns (m: Map)
    ensures Holds(m, Mapping(Prepared(doc, discovered)))
  {
    m := Load(Mapping(doc));
    if |m.entries| > 0 {
      RemoveEmptyMaps(m, Mapping(doc));
      ExpandDefaultEnabled(m, Pruned(Mapping(doc)), discovered);
    }
  }
}
