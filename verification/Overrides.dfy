/**
 * What the override file means to its readers, and what its writer keeps (pkg/configtui/overrides.go,
 * pkg/configgen/generator.go).  Documents are parsed trees; `Text` stands for every scalar that is not a boolean.
 */
module Overrides {
  import opened Common
  import opened DependencyTable

  datatype Yaml =
    | Null
    | Flag(value: bool)
    | Text(text: string)
    | Sequence(items: seq<Yaml>)
    | Mapping(entries: map<string, Yaml>)

  type Block = map<string, Yaml>

  const MODELS := "models"
  const OVERRIDES := "overrides"
  const DEFAULT_ENABLED := "defaultEnabled"
  const ENABLED := "enabled"
  const CONFIG := "config"
  const ENV := "env"
  const MIN_TIMESTAMP := "EXTERNAL_MODEL_MIN_TIMESTAMP"
  const MIN_BLOCK := "EXTERNAL_MODEL_MIN_BLOCK"

  // ---- The typed reader ----

  datatype ModelOverride = ModelOverride(enabled: Option<bool>, config: Option<Block>)

  datatype CBTOverrides = CBTOverrides(
    env: map<string, string>, defaultEnabled: Option<bool>, overrides: Option<map<string, ModelOverride>>)

  function Field(m: Block, key: string): Yaml {
    if key in m then m[key] else Null
  }

  function BlockOf(y: Yaml): Block {
    if y.Mapping? then y.entries else map[]
  }

  predicate IsBlock(y: Yaml) { y.Null? || y.Mapping? }
  predicate IsFlag(y: Yaml) { y.Null? || y.Flag? }
  predicate IsScalar(y: Yaml) { y.Null? || y.Flag? || y.Text? }

  predicate IsOverride(y: Yaml) {
    IsBlock(y) && IsFlag(Field(BlockOf(y), ENABLED)) && IsBlock(Field(BlockOf(y), CONFIG))
  }

  function ModelsOf(doc: Yaml): Block { BlockOf(Field(BlockOf(doc), MODELS)) }

  function EntriesOf(models: Block): Block { BlockOf(Field(models, OVERRIDES)) }

  /** The document fits the types it is read into. */
  predicate WellTyped(doc: Yaml) {
    var models := ModelsOf(doc);
    && IsBlock(doc) && IsBlock(Field(BlockOf(doc), MODELS))
    && IsBlock(Field(models, ENV))
    && (forall k | k in BlockOf(Field(models, ENV)) :: IsScalar(BlockOf(Field(models, ENV))[k]))
    && IsFlag(Field(models, DEFAULT_ENABLED))
    && IsBlock(Field(models, OVERRIDES)) && forall k | k in EntriesOf(models) :: IsOverride(EntriesOf(models)[k])
  }

  function FlagOf(y: Yaml): Option<bool> {
    if y.Flag? then Some(y.value) else None
  }

  function ScalarText(y: Yaml): string {
    match y case Text(t) => t case Flag(b) => if b then "true" else "false" case _ => ""
  }

  function OverrideOf(y: Yaml): ModelOverride {
    var config := Field(BlockOf(y), CONFIG);
    ModelOverride(FlagOf(Field(BlockOf(y), ENABLED)), if config.Mapping? then Some(config.entries) else None)
  }

  function TypedOverrides(doc: Yaml): CBTOverrides {
    var models := ModelsOf(doc);
    var env := BlockOf(Field(models, ENV));
    CBTOverrides(
      map k | k in env :: ScalarText(env[k]),
      FlagOf(Field(models, DEFAULT_ENABLED)),
      Some(map k | k in EntriesOf(models) :: OverrideOf(EntriesOf(models)[k])))
  }

  datatype LoadError = Unparsable

  /** The overrides in a file, and whether it exists. */
  function LoadOverrides(file: Option<Yaml>): (Result<CBTOverrides, LoadError>, bool) {
    if file.None? then (Ok(CBTOverrides(map[], None, Some(map[]))), false)
    else if WellTyped(file.value) then (Ok(TypedOverrides(file.value)), true)
    else (Err(Unparsable), true)
  }

  predicate IsModelDisabled(overrides: Option<CBTOverrides>, name: string) {
    if overrides.None? || overrides.value.overrides.None? then
      overrides.Some? && overrides.value.defaultEnabled == Some(false)
    else if name in overrides.value.overrides.value then
      overrides.value.overrides.value[name].enabled == Some(false)
    else
      overrides.value.defaultEnabled == Some(false)
  }

  // ---- The second reader: which discovered models are enabled ----

  /** It only looks at the flags, so it also accepts files that LoadOverrides rejects. */
  predicate HasStates(doc: Yaml) {
    var models := ModelsOf(doc);
    && IsBlock(doc) && IsBlock(Field(BlockOf(doc), MODELS)) && IsFlag(Field(models, DEFAULT_ENABLED))
    && IsBlock(Field(models, OVERRIDES))
    && forall k | k in EntriesOf(models) ::
         IsBlock(EntriesOf(models)[k]) && IsFlag(Field(BlockOf(EntriesOf(models)[k]), ENABLED))
  }

  datatype ModelStates = ModelStates(disabled: set<string>, enabled: set<string>, defaultEnabled: bool)

  method LoadModelStates(file: Option<Yaml>) returns (r: Result<ModelStates, LoadError>)
    ensures r.Err? <==> file.Some? && !HasStates(file.value)
    ensures r.Ok? && file.None? ==> r.value == ModelStates({}, {}, true)
    ensures r.Ok? && file.Some? ==>
      var models := ModelsOf(file.value);
      && r.value.defaultEnabled == (FlagOf(Field(models, DEFAULT_ENABLED)) != Some(false))
      && (forall k ::
           k in r.value.disabled <==> k in EntriesOf(models) && OverrideOf(EntriesOf(models)[k]).enabled == Some(false))
      && (forall k ::
           k in r.value.enabled <==> k in EntriesOf(models) && OverrideOf(EntriesOf(models)[k]).enabled != Some(false))
  {
    var states := ModelStates({}, {}, true);
    if file.None? { return Ok(states); }
    if !HasStates(file.value) { return Err(Unparsable); }
    var models := ModelsOf(file.value);
    var flag := FlagOf(Field(models, DEFAULT_ENABLED));
    if flag.Some? { states := states.(defaultEnabled := flag.value); }
    var entries := EntriesOf(models);
    var remaining := entries.Keys;
    while remaining != {}
      invariant remaining <= entries.Keys
      invariant states.defaultEnabled == (flag != Some(false))
      invariant forall k ::
        k in states.disabled <==> k in entries && k !in remaining && OverrideOf(entries[k]).enabled == Some(false)
      invariant forall k ::
        k in states.enabled <==> k in entries && k !in remaining && OverrideOf(entries[k]).enabled != Some(false)
      decreases remaining
    {
      var name := AnyKey(remaining);
      if OverrideOf(entries[name]).enabled == Some(false) {
        states := states.(disabled := states.disabled + {name});
      } else {
        states := states.(enabled := states.enabled + {name});
      }
      remaining := remaining - {name};
    }
    return Ok(states);
  }

  datatype TablesError = NotDiscovered | BadOverrides

  /** The verdict read off the tree. */
  predicate DisabledIn(doc: Yaml, name: string) {
    var models := ModelsOf(doc);
    if name in EntriesOf(models) then FlagOf(Field(BlockOf(EntriesOf(models)[name]), ENABLED)) == Some(false)
    else FlagOf(Field(models, DEFAULT_ENABLED)) == Some(false)
  }

  lemma VerdictOfTree(doc: Yaml, name: string)
    requires WellTyped(doc)
    ensures IsModelDisabled(Some(TypedOverrides(doc)), name) <==> DisabledIn(doc, name)
  {
  }

  /** The models that the file, if there is one, does not disable. */
  function Keep(models: seq<string>, file: Option<Yaml>): seq<string> {
    if models == [] then []
    else
      var n := |models| - 1;
      Keep(models[..n], file) + if file.Some? && DisabledIn(file.value, models[n]) then [] else [models[n]]
  }

  /** Without models the file is not even read. */
  method GetLocallyEnabledTables(discovered: Option<seq<string>>, file: Option<Yaml>)
    returns (r: Result<seq<string>, TablesError>)
    ensures r == if discovered.None? then Err(NotDiscovered)
                 else if discovered.value != [] && file.Some? && !HasStates(file.value) then Err(BadOverrides)
                 else Ok(Keep(discovered.value, file))
  {
    if discovered.None? { return Err(NotDiscovered); }
    var all := discovered.value;
    if all == [] { return Ok([]); }
    var loaded := LoadModelStates(file);
    if loaded.Err? { return Err(BadOverrides); }
    var states := loaded.value;
    var tables: seq<string> := [];
    for i := 0 to |all|
      invariant tables == Keep(all[..i], file)
    {
      assert all[..i + 1][..i] == all[..i];
      var kept := if states.defaultEnabled then all[i] !in states.disabled else all[i] in states.enabled;
      if kept { tables := tables + [all[i]]; }
    }
    assert all[..|all|] == all;
    return Ok(tables);
  }

  lemma {:induction false} KeepMembers(models: seq<string>, file: Option<Yaml>, m: string)
    ensures m in Keep(models, file) <==> m in models && !(file.Some? && DisabledIn(file.value, m))
  {
    if models == [] {
    } else {
      var n := |models| - 1;
      KeepMembers(models[..n], file, m);
      assert models == models[..n] + [models[n]];
    }
  }

  /** On every file that LoadOverrides accepts, both readers agree about every discovered model. */
  lemma ReadersAgree(models: seq<string>, file: Option<Yaml>, m: string)
    requires LoadOverrides(file).0.Ok?
    ensures file.Some? ==> HasStates(file.value)
    ensures m in Keep(models, file) <==> m in models && !IsModelDisabled(Some(LoadOverrides(file).0.value), m)
  {
    KeepMembers(models, file, m);
    if file.Some? { VerdictOfTree(file.value, m); }
  }

  // ---- Preparing the file for the merge ----

  /** Something other than null is left at the bottom of it. */
  predicate HasLeaf(y: Yaml) {
    match y
    case Null => false
    case Mapping(m) => exists k :: k in m && HasLeaf(m[k])
    case _ => true
  }

  /** The tree without nulls and without what is empty once they are gone. */
  function Pruned(y: Yaml): Yaml {
    match y
    case Mapping(m) => Mapping(map k | k in m && HasLeaf(m[k]) :: Pruned(m[k]))
    case _ => y
  }

  lemma EmptyIffNoLeaf(y: Yaml)
    requires y.Mapping?
    ensures |Pruned(y).entries| == 0 <==> !HasLeaf(y)
  {
    var r := Pruned(y).entries;
    assert |r| == 0 <==> r.Keys == {};
    if HasLeaf(y) {
      var k :| k in y.entries && HasLeaf(y.entries[k]);
      assert k in r;
    }
  }

  function Disabling(names: set<string>): Block {
    map n | n in names :: Mapping(map[ENABLED := Flag(false)])
  }

  /** An allowlist becomes explicit: every discovered model it does not list is disabled by name. */
  function Expanded(doc: Block, discovered: Option<seq<string>>): Block {
    if MODELS !in doc || !doc[MODELS].Mapping? then doc
    else
      var models := doc[MODELS].entries;
      if Field(models, DEFAULT_ENABLED) != Flag(false) || discovered.None? then doc
      else
        var entries := EntriesOf(models);
        var all := entries + Disabling(Elements(discovered.value) - entries.Keys);
        doc[MODELS := Mapping((models - {DEFAULT_ENABLED})[OVERRIDES := Mapping(all)])]
  }

  lemma DisablingOneMore(before: Block, names: set<string>, name: string)
    ensures before + Disabling(names + {name} - before.Keys)
      == if name in before + Disabling(names - before.Keys) then before + Disabling(names - before.Keys)
         else (before + Disabling(names - before.Keys))[name := Mapping(map[ENABLED := Flag(false)])]
  {
  }

  // ---- What the preparation does to the verdict ----

  /** The entry keeps its listing through pruning. */
  predicate StaysListed(doc: Yaml, name: string) {
    name in EntriesOf(ModelsOf(doc)) && HasLeaf(EntriesOf(ModelsOf(doc))[name])
  }

  lemma PrunedField(m: Block, key: string)
    ensures var r := BlockOf(Pruned(Mapping(m)));
      Field(r, key) == if HasLeaf(Field(m, key)) then Pruned(Field(m, key)) else Null
  {
  }

  /** Pruning a block prunes its fields; a block pruned away reads as empty. */
  lemma PrunedBlockOf(y: Yaml)
    requires IsBlock(y)
    ensures BlockOf(if HasLeaf(y) then Pruned(y) else Null) == BlockOf(Pruned(y))
    ensures IsBlock(if HasLeaf(y) then Pruned(y) else Null)
  {
    if y.Mapping? && !HasLeaf(y) {
      EmptyIffNoLeaf(y);
    }
  }

  lemma PrunedParts(doc: Yaml)
    requires IsBlock(doc) && IsBlock(Field(BlockOf(doc), MODELS)) && IsBlock(Field(ModelsOf(doc), OVERRIDES))
    ensures var models, after := ModelsOf(doc), ModelsOf(Pruned(doc));
      && after == BlockOf(Pruned(Mapping(models)))
      && EntriesOf(after) == BlockOf(Pruned(Mapping(EntriesOf(models))))
      && IsBlock(Field(BlockOf(Pruned(doc)), MODELS)) && IsBlock(Field(after, OVERRIDES))
  {
    PrunedField(BlockOf(doc), MODELS);
    PrunedBlockOf(Field(BlockOf(doc), MODELS));
    PrunedField(ModelsOf(doc), OVERRIDES);
    PrunedBlockOf(Field(ModelsOf(doc), OVERRIDES));
    assert Pruned(Mapping(map[])) == Mapping(map[]);
    assert doc.Null? ==> BlockOf(Pruned(doc)) == map[];
  }

  /** A flag is a leaf, so it comes through pruning unchanged. */
  lemma PrunedFlag(y: Yaml, key: string)
    requires IsBlock(y) && IsFlag(Field(BlockOf(y), key))
    ensures Field(BlockOf(Pruned(y)), key) == Field(BlockOf(y), key)
  {
    PrunedField(BlockOf(y), key);
  }

  lemma PrunedVerdict(doc: Yaml, name: string)
    requires WellTyped(doc)
    ensures var before, after := ModelsOf(doc), ModelsOf(Pruned(doc));
      && Field(after, DEFAULT_ENABLED) == Field(before, DEFAULT_ENABLED)
      && (name in EntriesOf(after) <==> StaysListed(doc, name))
      && (name in EntriesOf(after) ==> var entry := EntriesOf(before)[name];
            && EntriesOf(after)[name] == Pruned(entry)
            && Field(BlockOf(Pruned(entry)), ENABLED) == Field(BlockOf(entry), ENABLED))
      && (name in EntriesOf(before) && name !in EntriesOf(after) ==>
           Field(BlockOf(EntriesOf(before)[name]), ENABLED) == Null)
  {
    PrunedParts(doc);
    PrunedFlag(Mapping(ModelsOf(doc)), DEFAULT_ENABLED);
    if name in EntriesOf(ModelsOf(doc)) {
      var entry := EntriesOf(ModelsOf(doc))[name];
      PrunedFlag(entry, ENABLED);
      if ENABLED in BlockOf(entry) && HasLeaf(BlockOf(entry)[ENABLED]) {
        assert HasLeaf(entry);
      }
    }
  }

  function Prepared(doc: Block, discovered: Option<seq<string>>): Block {
    Expanded(BlockOf(Pruned(Mapping(doc))), discovered)
  }

  /** Where the expansion takes effect. */
  predicate Expands(doc: Yaml, discovered: Option<seq<string>>) {
    Field(ModelsOf(doc), DEFAULT_ENABLED) == Flag(false) && discovered.Some?
  }

  lemma ExpandedParts(doc: Block, discovered: Option<seq<string>>)
    ensures var before, after := ModelsOf(Mapping(doc)), ModelsOf(Mapping(Expanded(doc, discovered)));
      if Expands(Mapping(doc), discovered) then
        && DEFAULT_ENABLED !in after
        && EntriesOf(after) == EntriesOf(before) + Disabling(Elements(discovered.value) - EntriesOf(before).Keys)
      else after == before
  {
    assert OVERRIDES != DEFAULT_ENABLED;
  }

  /**
   * Preparing the file changes a model's verdict only in an allowlist: for a model whose listing holds no
   * leaf, which is lost, and for an unlisted model that the expansion does not know.
   */
  lemma VerdictPreservedIff(doc: Block, discovered: Option<seq<string>>, name: string)
    requires WellTyped(Mapping(doc))
    ensures var listed, known := name in EntriesOf(ModelsOf(Mapping(doc))), discovered.None?
      || name in discovered.value;
      var allowlist := Field(ModelsOf(Mapping(doc)), DEFAULT_ENABLED) == Flag(false);
      (DisabledIn(Mapping(Prepared(doc, discovered)), name) == DisabledIn(Mapping(doc), name))
      <==> !(allowlist && if known then listed && !StaysListed(Mapping(doc), name) else !listed)
  {
    var pruned := BlockOf(Pruned(Mapping(doc)));
    assert Pruned(Mapping(doc)) == Mapping(pruned);
    PrunedVerdict(Mapping(doc), name);
    ExpandedParts(pruned, discovered);
  }

  /** The prepared file still fits its types. */
  lemma PreparedIsWellTyped(doc: Block, discovered: Option<seq<string>>)
    requires WellTyped(Mapping(doc))
    ensures WellTyped(Mapping(Prepared(doc, discovered)))
  {
    var pruned := BlockOf(Pruned(Mapping(doc)));
    assert Pruned(Mapping(doc)) == Mapping(pruned);
    PrunedIsWellTyped(Mapping(doc));
    ExpandedIsWellTyped(pruned, discovered);
  }

  lemma PrunedIsWellTyped(doc: Yaml)
    requires WellTyped(doc)
    ensures WellTyped(Pruned(doc))
  {
    var models := ModelsOf(doc);
    PrunedParts(doc);
    PrunedVerdict(doc, "");
    PrunedField(models, ENV);
    PrunedBlockOf(Field(models, ENV));
    var after := ModelsOf(Pruned(doc));
    forall k | k in EntriesOf(after) ensures IsOverride(EntriesOf(after)[k]) {
      PrunedVerdict(doc, k);
      var entry := EntriesOf(models)[k];
      PrunedField(BlockOf(entry), CONFIG);
      PrunedBlockOf(Field(BlockOf(entry), CONFIG));
    }
  }

  lemma ExpandedIsWellTyped(doc: Block, discovered: Option<seq<string>>)
    requires WellTyped(Mapping(doc))
    ensures WellTyped(Mapping(Expanded(doc, discovered)))
  {
    ExpandedParts(doc, discovered);
    assert OVERRIDES != ENV && DEFAULT_ENABLED != ENV && OVERRIDES != DEFAULT_ENABLED && ENABLED != CONFIG;
  }

  /** So the typed readers agree before and after on every model that is unlisted, or listed with a leaf. */
  lemma PreparedVerdict(doc: Block, discovered: Option<seq<string>>, name: string)
    requires WellTyped(Mapping(doc)) && (discovered.Some? ==> name in discovered.value)
    ensures var before, after := Some(TypedOverrides(Mapping(doc))),
      Some(TypedOverrides(Mapping(Prepared(doc, discovered))));
      (IsModelDisabled(after, name) == IsModelDisabled(before, name))
      <==> !(before.value.defaultEnabled == Some(false) && name in before.value.overrides.value
           && !StaysListed(Mapping(doc), name))
  {
    VerdictPreservedIff(doc, discovered, name);
    PreparedIsWellTyped(doc, discovered);
    VerdictOfTree(Mapping(doc), name);
    VerdictOfTree(Mapping(Prepared(doc, discovered)), name);
  }

  // ---- The writer ----

  /** What a written file says, line by line: commented lines say nothing. */
  datatype Written = Written(
    defaultEnabled: Option<bool>, env: map<string, string>, entries: seq<(string, ModelOverride)>)

  datatype EnvSetting = EnvSetting(value: string, enabled: bool)

  function KeysWhere(models: seq<ModelEntry>, wanted: ModelEntry -> bool): seq<string> {
    if models == [] then []
    else
      var n := |models| - 1;
      KeysWhere(models[..n], wanted) + if wanted(models[n]) then [models[n].overrideKey] else []
  }

  function ExistingConfig(existing: Option<CBTOverrides>, key: string): Option<Block> {
    if existing.Some? && existing.value.overrides.Some? && key in existing.value.overrides.value
    then existing.value.overrides.value[key].config else None
  }

  predicate IsDisabledEntry(m: ModelEntry) { !m.enabled }

  function KeptEnabled(existing: Option<CBTOverrides>): ModelEntry -> bool {
    (m: ModelEntry) => m.enabled && ExistingConfig(existing, m.overrideKey).Some?
  }

  function EnabledWithConfig(models: seq<ModelEntry>, existing: Option<CBTOverrides>, allowlist: bool): seq<string> {
    if allowlist then SortStrings(KeysWhere(models, KeptEnabled(existing))) else []
  }

  function EntriesFor(
      keys: seq<string>, enabled: Option<bool>, existing: Option<CBTOverrides>): seq<(string, ModelOverride)>
  {
    if keys == [] then []
    else
      var n := |keys| - 1;
      EntriesFor(keys[..n], enabled, existing) + [(keys[n], ModelOverride(enabled, ExistingConfig(existing, keys[n])))]
  }

  predicate IsWritten(setting: EnvSetting) { setting.enabled && setting.value != "" }

  function EnvFor(timestamp: EnvSetting, minBlock: EnvSetting): map<string, string> {
    var first := if IsWritten(timestamp) then map[MIN_TIMESTAMP := timestamp.value] else map[];
    if IsWritten(minBlock) then first[MIN_BLOCK := minBlock.value] else first
  }

  function WrittenFor(
      models: seq<ModelEntry>, timestamp: EnvSetting, minBlock: EnvSetting,
      existing: Option<CBTOverrides>, defaultEnabled: Option<bool>): Written {
    var allowlist := defaultEnabled == Some(false);
    Written(
      if allowlist then Some(false) else None,
      EnvFor(timestamp, minBlock),
      EntriesFor(EnabledWithConfig(models, existing, allowlist), None, existing)
      + EntriesFor(SortStrings(KeysWhere(models, IsDisabledEntry)), Some(false), existing))
  }

  lemma {:induction false} KeysWhereConcat(a: seq<ModelEntry>, b: seq<ModelEntry>, wanted: ModelEntry -> bool)
    ensures KeysWhere(a + b, wanted) == KeysWhere(a, wanted) + KeysWhere(b, wanted)
  {
    if b == [] {
      assert a + b == a;
    } else {
      var n := |b| - 1;
      KeysWhereConcat(a, b[..n], wanted);
      assert (a + b)[..|a + b| - 1] == a + b[..n];
    }
  }

  method SelectKeys(models: seq<ModelEntry>, wanted: ModelEntry -> bool, start: seq<string>) returns (keys: seq<string>)
    ensures keys == start + KeysWhere(models, wanted)
  {
    keys := start;
    for i := 0 to |models|
      invariant keys == start + KeysWhere(models[..i], wanted)
    {
      assert models[..i + 1][..i] == models[..i];
      if wanted(models[i]) { keys := keys + [models[i].overrideKey]; }
    }
    assert models[..|models|] == models;
  }

  method WriteEntries(keys: seq<string>, enabled: Option<bool>, existing: Option<CBTOverrides>)
    returns (entries: seq<(string, ModelOverride)>)
    ensures entries == EntriesFor(keys, enabled, existing)
  {
    entries := [];
    for i := 0 to |keys|
      invariant entries == EntriesFor(keys[..i], enabled, existing)
    {
      assert keys[..i + 1][..i] == keys[..i];
      entries := entries + [(keys[i], ModelOverride(enabled, ExistingConfig(existing, keys[i])))];
    }
    assert keys[..|keys|] == keys;
  }

  method SaveOverridesFromEntries(
      externalModels: seq<ModelEntry>, transformationModels: seq<ModelEntry>, timestamp: EnvSetting,
      minBlock: EnvSetting,
      existing: Option<CBTOverrides>, defaultEnabled: Option<bool>) returns (w: Written)
    ensures w == WrittenFor(externalModels + transformationModels, timestamp, minBlock, existing, defaultEnabled)
  {
    var isAllowlist := defaultEnabled.Some? && !defaultEnabled.value;
    var env := WriteEnv(timestamp, minBlock);
    var overrideModels := CollectDisabled(externalModels, transformationModels);
    var enabledWithConfig := CollectKept(externalModels, transformationModels, existing, isAllowlist);
    var first := WriteEntries(enabledWithConfig, None, existing);
    var second := WriteEntries(overrideModels, Some(false), existing);
    return Written(if isAllowlist then Some(false) else None, env, first + second);
  }

  method WriteEnv(timestamp: EnvSetting, minBlock: EnvSetting) returns (env: map<string, string>)
    ensures env == EnvFor(timestamp, minBlock)
  {
    env := map[];
    if timestamp.enabled && timestamp.value != "" { env := env[MIN_TIMESTAMP := timestamp.value]; }
    if minBlock.enabled && minBlock.value != "" { env := env[MIN_BLOCK := minBlock.value]; }
  }

  method CollectDisabled(externalModels: seq<ModelEntry>, transformationModels: seq<ModelEntry>)
    returns (keys: seq<string>)
    ensures keys == SortStrings(KeysWhere(externalModels + transformationModels, IsDisabledEntry))
  {
    keys := SelectKeys(externalModels, IsDisabledEntry, []);
    keys := SelectKeys(transformationModels, IsDisabledEntry, keys);
    KeysWhereConcat(externalModels, transformationModels, IsDisabledEntry);
    assert keys == KeysWhere(externalModels + transformationModels, IsDisabledEntry);
    keys := SortStrings(keys);
  }

  method CollectKept(
      externalModels: seq<ModelEntry>, transformationModels: seq<ModelEntry>, existing: Option<CBTOverrides>,
      isAllowlist: bool)
    returns (keys: seq<string>)
    ensures keys == EnabledWithConfig(externalModels + transformationModels, existing, isAllowlist)
  {
    keys := [];
    if isAllowlist && existing.Some? {
      keys := SelectKeys(externalModels, KeptEnabled(existing), []);
      keys := SelectKeys(transformationModels, KeptEnabled(existing), keys);
      KeysWhereConcat(externalModels, transformationModels, KeptEnabled(existing));
      assert keys == KeysWhere(externalModels + transformationModels, KeptEnabled(existing));
      keys := SortStrings(keys);
    } else if existing == None {
      NoneKept(externalModels + transformationModels);
      assert |SortStrings([])| == 0;
    }
  }

  lemma {:induction false} NoneKept(models: seq<ModelEntry>)
    ensures KeysWhere(models, KeptEnabled(None)) == []
  {
    if models == [] {
    } else {
      NoneKept(models[..|models| - 1]);
    }
  }

  // ---- Reading back what was written ----

  function Keys<T>(pairs: seq<(string, T)>): seq<string> {
    if pairs == [] then [] else Keys(pairs[..|pairs| - 1]) + [pairs[|pairs| - 1].0]
  }

  function MapOf<T>(pairs: seq<(string, T)>): map<string, T> {
    if pairs == [] then map[] else MapOf(pairs[..|pairs| - 1])[pairs[|pairs| - 1].0 := pairs[|pairs| - 1].1]
  }

  /** A mapping that names a key twice is not valid YAML. */
  function LoadWritten(w: Written): Result<CBTOverrides, LoadError> {
    if !NoDuplicates(Keys(w.entries)) then Err(Unparsable)
    else Ok(CBTOverrides(w.env, w.defaultEnabled, Some(MapOf(w.entries))))
  }

  predicate DistinctKeys(models: seq<ModelEntry>) {
    forall i, j | 0 <= i < j < |models| :: models[i].overrideKey != models[j].overrideKey
  }

  lemma {:induction false} KeysWhereMembers(models: seq<ModelEntry>, wanted: ModelEntry -> bool, key: string)
    ensures key in KeysWhere(models, wanted) <==> exists m :: m in models && wanted(m) && m.overrideKey == key
    ensures DistinctKeys(models) ==> NoDuplicates(KeysWhere(models, wanted))
  {
    if models == [] {
    } else {
      var n := |models| - 1;
      var before, last := models[..n], models[n];
      KeysWhereMembers(before, wanted, key);
      KeysWhereMembers(before, wanted, last.overrideKey);
      assert models == before + [last];
      if DistinctKeys(models) {
        assert forall m | m in before :: m.overrideKey != last.overrideKey;
      }
    }
  }

  lemma MapOfSnoc<T>(pairs: seq<(string, T)>, pair: (string, T))
    ensures MapOf(pairs + [pair]) == MapOf(pairs)[pair.0 := pair.1] && Keys(pairs + [pair]) == Keys(pairs) + [pair.0]
  {
    assert (pairs + [pair])[..|pairs|] == pairs;
  }

  /** Looking a key up in the concatenation of blocks of entries. */
  lemma {:induction false} EntriesForMap(
      start: seq<(string, ModelOverride)>, keys: seq<string>, enabled: Option<bool>, existing: Option<CBTOverrides>,
      k: string)
    ensures var all := start + EntriesFor(keys, enabled, existing);
      && Keys(all) == Keys(start) + keys
      && (k in MapOf(all) <==> k in MapOf(start) || k in keys)
      && (k in MapOf(all) ==>
            MapOf(all)[k] == if k in keys then ModelOverride(enabled, ExistingConfig(existing, k)) else MapOf(start)[k])
    decreases |keys|
  {
    if keys == [] {
      assert start + EntriesFor(keys, enabled, existing) == start;
    } else {
      var n := |keys| - 1;
      EntriesForMap(start, keys[..n], enabled, existing, k);
      var before, last := start + EntriesFor(keys[..n], enabled, existing),
          (keys[n], ModelOverride(enabled, ExistingConfig(existing, keys[n])));
      MapOfSnoc(before, last);
      assert start + EntriesFor(keys, enabled, existing) == before + [last];
      assert keys == keys[..n] + [keys[n]];
    }
  }

  /**
   * A written file loads unless two of the entries in it have the same key, and then says of each model what was
   * saved.
   */
  lemma WrittenMeans(models: seq<ModelEntry>, timestamp: EnvSetting, minBlock: EnvSetting,
      existing: Option<CBTOverrides>, defaultEnabled: Option<bool>, k: string)
    ensures var w := WrittenFor(models, timestamp, minBlock, existing, defaultEnabled);
      var kept := EnabledWithConfig(models, existing, defaultEnabled == Some(false));
      var disabled := SortStrings(KeysWhere(models, IsDisabledEntry));
      && Keys(w.entries) == kept + disabled
      && (k in MapOf(w.entries) <==> k in kept || k in disabled)
      && (k in MapOf(w.entries) ==>
            MapOf(w.entries)[k]
              == ModelOverride(if k in disabled then Some(false) else None, ExistingConfig(existing, k)))
  {
    var kept := EnabledWithConfig(models, existing, defaultEnabled == Some(false));
    var first := EntriesFor(kept, None, existing);
    assert [] + first == first && Keys<ModelOverride>([]) + kept == kept;
    EntriesForMap([], kept, None, existing, k);
    EntriesForMap(first, SortStrings(KeysWhere(models, IsDisabledEntry)), Some(false), existing, k);
  }

  /** A variable comes back exactly when it is enabled and not empty. */
  lemma EnvMeans(timestamp: EnvSetting, minBlock: EnvSetting)
    ensures var env := EnvFor(timestamp, minBlock);
      && env.Keys <= {MIN_TIMESTAMP, MIN_BLOCK}
      && (MIN_TIMESTAMP in env <==> timestamp.enabled && timestamp.value != "")
      && (MIN_TIMESTAMP in env ==> env[MIN_TIMESTAMP] == timestamp.value)
      && (MIN_BLOCK in env <==> minBlock.enabled && minBlock.value != "")
      && (MIN_BLOCK in env ==> env[MIN_BLOCK] == minBlock.value)
  {
    assert MIN_TIMESTAMP[19] != MIN_BLOCK[19];
  }

  /** No entry is both kept enabled and disabled, when the keys differ. */
  lemma WrittenKeysDistinct(models: seq<ModelEntry>, existing: Option<CBTOverrides>, allowlist: bool)
    requires DistinctKeys(models)
    ensures NoDuplicates(EnabledWithConfig(models, existing,
      allowlist) + SortStrings(KeysWhere(models, IsDisabledEntry)))
  {
    SortedKeysDistinct(models, KeptEnabled(existing));
    SortedKeysDistinct(models, IsDisabledEntry);
    var kept, disabled := EnabledWithConfig(models, existing, allowlist),
        SortStrings(KeysWhere(models, IsDisabledEntry));
    forall k | k in kept ensures k !in disabled {
      KeysWhereMembers(models, KeptEnabled(existing), k);
      var m :| m in models && KeptEnabled(existing)(m) && m.overrideKey == k;
      SameKeySameEntry(models, m);
      KeysWhereMembers(models, IsDisabledEntry, k);
    }
    NoDuplicatesConcat(kept, disabled);
  }

  lemma SortedKeysDistinct(models: seq<ModelEntry>, wanted: ModelEntry -> bool)
    requires DistinctKeys(models)
    ensures NoDuplicates(SortStrings(KeysWhere(models, wanted)))
  {
    KeysWhereMembers(models, wanted, "");
    SameMultisetNoDuplicates(KeysWhere(models, wanted), SortStrings(KeysWhere(models, wanted)));
  }

  /**
   * The verdict of each entry comes back, except that of an enabled model in an allowlist with no block to list it by.
   */
  lemma SaveThenLoad(models: seq<ModelEntry>, timestamp: EnvSetting, minBlock: EnvSetting,
      existing: Option<CBTOverrides>, defaultEnabled: Option<bool>, m: ModelEntry)
    requires DistinctKeys(models) && m in models
    ensures var loaded := LoadWritten(WrittenFor(models, timestamp, minBlock, existing, defaultEnabled));
      && loaded.Ok? && loaded.value.env == EnvFor(timestamp, minBlock)
      && ((IsModelDisabled(Some(loaded.value), m.overrideKey) == !m.enabled)
          <==> !(defaultEnabled == Some(false) && m.enabled && ExistingConfig(existing, m.overrideKey).None?))
  {
    WrittenMeans(models, timestamp, minBlock, existing, defaultEnabled, m.overrideKey);
    WrittenKeysDistinct(models, existing, defaultEnabled == Some(false));
    WrittenIff(models, existing, defaultEnabled == Some(false), m);
  }

  /** A configuration block that is written comes back; one that is not belongs to a model enabled by default. */
  lemma SaveKeepsConfig(models: seq<ModelEntry>, timestamp: EnvSetting, minBlock: EnvSetting,
      existing: Option<CBTOverrides>, defaultEnabled: Option<bool>, m: ModelEntry)
    requires DistinctKeys(models) && m in models
    requires ExistingConfig(existing, m.overrideKey).Some?
    ensures var entries := MapOf(WrittenFor(models, timestamp, minBlock, existing, defaultEnabled).entries);
      && (m.overrideKey in entries <==> !m.enabled || defaultEnabled == Some(false))
      && (m.overrideKey in entries ==> entries[m.overrideKey].config == ExistingConfig(existing, m.overrideKey))
  {
    WrittenMeans(models, timestamp, minBlock, existing, defaultEnabled, m.overrideKey);
    WrittenIff(models, existing, defaultEnabled == Some(false), m);
  }

  lemma WrittenIff(models: seq<ModelEntry>, existing: Option<CBTOverrides>, allowlist: bool, m: ModelEntry)
    requires DistinctKeys(models) && m in models
    ensures m.overrideKey in SortStrings(KeysWhere(models, IsDisabledEntry)) <==> !m.enabled
    ensures m.overrideKey in EnabledWithConfig(models, existing, allowlist)
            <==> allowlist && m.enabled && ExistingConfig(existing, m.overrideKey).Some?
  {
    SameKeySameEntry(models, m);
    KeysWhereMembers(models, KeptEnabled(existing), m.overrideKey);
    KeysWhereMembers(models, IsDisabledEntry, m.overrideKey);
  }

  lemma SameKeySameEntry(models: seq<ModelEntry>, m: ModelEntry)
    requires DistinctKeys(models) && m in models
    ensures forall n | n in models && n.overrideKey == m.overrideKey :: n == m
  {
  }

  // ---- The written file as a document, and what the reader makes of it ----

  function IfSome<T>(value: Option<T>, key: string, doc: T -> Yaml): Block {
    if value.Some? then map[key := doc(value.value)] else map[]
  }

  /** The lines below an entry's key; without any the key stands alone. */
  function EntryDoc(o: ModelOverride): Yaml {
    if o.enabled.None? && o.config.None? then Null
    else Mapping(IfSome(o.enabled, "enabled", (b: bool) => Flag(b)) + IfSome(o.config, "config",
        (c: Block) => Mapping(c)))
  }

  /** The document that the lines hold; below `env` there may be comments only. */
  function DocOf(w: Written): Yaml {
    var entries := MapOf(w.entries);
    Mapping(map["models" := Mapping(
      IfSome(w.defaultEnabled, "defaultEnabled", (b: bool) => Flag(b))
      + map["env" := if w.env == map[] then Null else Mapping(map k | k in w.env :: Text(w.env[k])),
            "overrides" := Mapping(map k | k in entries :: EntryDoc(entries[k]))])])
  }

  lemma EntryReadsBack(o: ModelOverride)
    ensures IsOverride(EntryDoc(o)) && OverrideOf(EntryDoc(o)) == o
  {
    assert ENABLED != CONFIG;
  }

  lemma DocFields(w: Written)
    ensures var models, entries := ModelsOf(DocOf(w)), MapOf(w.entries);
      && Field(models, DEFAULT_ENABLED) == (if w.defaultEnabled.Some? then Flag(w.defaultEnabled.value) else Null)
      && Field(models, ENV) == (if w.env == map[] then Null else Mapping(map k | k in w.env :: Text(w.env[k])))
      && Field(models, OVERRIDES) == Mapping(map k | k in entries :: EntryDoc(entries[k]))
      && IsBlock(DocOf(w)) && IsBlock(Field(BlockOf(DocOf(w)), MODELS))
  {
    assert DEFAULT_ENABLED != ENV && DEFAULT_ENABLED != OVERRIDES && ENV != OVERRIDES;
  }

  lemma EnvReadsBack(w: Written)
    ensures var env := BlockOf(Field(ModelsOf(DocOf(w)), ENV));
      (map k | k in env :: ScalarText(env[k])) == w.env && forall k | k in env :: IsScalar(env[k])
  {
    DocFields(w);
  }

  lemma EntriesReadBack(w: Written)
    ensures var entries := EntriesOf(ModelsOf(DocOf(w)));
      && (map k | k in entries :: OverrideOf(entries[k])) == MapOf(w.entries)
      && forall k | k in entries :: IsOverride(entries[k])
  {
    DocFields(w);
    var written, entries := MapOf(w.entries), EntriesOf(ModelsOf(DocOf(w)));
    assert entries.Keys == written.Keys;
    forall k | k in written ensures IsOverride(entries[k]) && OverrideOf(entries[k]) == written[k] {
      EntryReadsBack(written[k]);
    }
  }

  /** The reader gives back every flag, variable and block that the lines hold. */
  lemma LoadsWhatIsWritten(w: Written)
    ensures LoadOverrides(Some(DocOf(w))) == (Ok(CBTOverrides(w.env, w.defaultEnabled, Some(MapOf(w.entries)))), true)
  {
    DocFields(w);
    EnvReadsBack(w);
    EntriesReadBack(w);
  }

  /** Saving and then loading the file gives back the blocks, the verdicts and the variables that were written. */
  lemma SavedFileLoads(models: seq<ModelEntry>, timestamp: EnvSetting, minBlock: EnvSetting,
      existing: Option<CBTOverrides>, defaultEnabled: Option<bool>)
    requires DistinctKeys(models)
    ensures var w := WrittenFor(models, timestamp, minBlock, existing, defaultEnabled);
      && NoDuplicates(Keys(w.entries))
      && LoadOverrides(Some(DocOf(w))) == (LoadWritten(w), true)
  {
    var w := WrittenFor(models, timestamp, minBlock, existing, defaultEnabled);
    WrittenMeans(models, timestamp, minBlock, existing, defaultEnabled, "");
    WrittenKeysDistinct(models, existing, defaultEnabled == Some(false));
    LoadsWhatIsWritten(w);
  }

  /** A model's configuration block is there again after saving and loading, with what was said about the model. */
  lemma BlockComesBack(models: seq<ModelEntry>, timestamp: EnvSetting, minBlock: EnvSetting,
      existing: CBTOverrides, defaultEnabled: Option<bool>, m: ModelEntry, block: Block)
    requires DistinctKeys(models) && m in models
    requires existing.overrides.Some? && m.overrideKey in existing.overrides.value
    requires existing.overrides.value[m.overrideKey].config == Some(block)
    requires !m.enabled || defaultEnabled == Some(false)
    ensures var loaded := LoadOverrides(Some(DocOf(WrittenFor(models, timestamp, minBlock, Some(existing),
      defaultEnabled)))).0;
      && loaded.Ok? && loaded.value.overrides.Some? && m.overrideKey in loaded.value.overrides.value
      && loaded.value.overrides.value[m.overrideKey]
           == ModelOverride(if m.enabled then None else Some(false), Some(block))
  {
    SavedFileLoads(models, timestamp, minBlock, Some(existing), defaultEnabled);
    WrittenMeans(models, timestamp, minBlock, Some(existing), defaultEnabled, m.overrideKey);
    WrittenIff(models, Some(existing), defaultEnabled == Some(false), m);
  }

  /** A disabled model without a block is listed as disabled and nothing more. */
  lemma DisabledComesBack(models: seq<ModelEntry>, timestamp: EnvSetting, minBlock: EnvSetting,
      existing: Option<CBTOverrides>, defaultEnabled: Option<bool>, m: ModelEntry)
    requires DistinctKeys(models) && m in models && !m.enabled
    requires existing.Some? && existing.value.overrides.Some? && m.overrideKey in existing.value.overrides.value ==>
      existing.value.overrides.value[m.overrideKey].config.None?
    ensures var loaded := LoadOverrides(Some(DocOf(WrittenFor(models, timestamp, minBlock, existing,
      defaultEnabled)))).0;
      && loaded.Ok? && loaded.value.overrides.Some? && m.overrideKey in loaded.value.overrides.value
      && loaded.value.overrides.value[m.overrideKey] == ModelOverride(Some(false), None)
  {
    SavedFileLoads(models, timestamp, minBlock, existing, defaultEnabled);
    WrittenMeans(models, timestamp, minBlock, existing, defaultEnabled, m.overrideKey);
    WrittenIff(models, existing, defaultEnabled == Some(false), m);
  }

  // ---- What the reader refuses ----

  /** A file whose parts have other types than the ones they are read into is refused. */
  lemma RefusesOtherTypes(doc: Yaml, models: Block)
    requires doc == Mapping(map["models" := Mapping(models)])
    ensures "env" in models && models["env"].Text? ==> LoadOverrides(Some(doc)) == (Err(Unparsable), true)
    ensures "defaultEnabled" in models && models["defaultEnabled"].Text? ==> LoadOverrides(Some(doc)).0.Err?
    ensures "overrides" in models && models["overrides"].Sequence? ==> LoadOverrides(Some(doc)).0.Err?
    ensures "env" in models && models["env"].Mapping? ==>
      forall k | k in models["env"].entries && models["env"].entries[k].Sequence? :: LoadOverrides(Some(doc)).0.Err?
  {
  }

  lemma RefusesOtherEntries(doc: Yaml, models: Block, entries: Block, k: string)
    requires doc == Mapping(map["models" := Mapping(models)])
    requires "overrides" in models && models["overrides"] == Mapping(entries) && k in entries
    ensures entries[k].Text? ==> LoadOverrides(Some(doc)).0.Err?
    ensures entries[k].Mapping? && "enabled" in entries[k].entries && entries[k].entries["enabled"].Text? ==>
      LoadOverrides(Some(doc)).0.Err?
    ensures entries[k].Mapping? && "config" in entries[k].entries && entries[k].entries["config"].Text? ==>
      LoadOverrides(Some(doc)).0.Err?
  {
    assert EntriesOf(models) == entries;
    assert LoadOverrides(Some(doc)).0.Ok? ==> IsOverride(EntriesOf(models)[k]);
  }

  /** A variable is read as its text, a boolean one as the word for it, and one without a value as empty. */
  lemma VariablesAreRead(doc: Yaml, models: Block, env: Block, k: string)
    requires doc == Mapping(map["models" := Mapping(models)]) && "env" in models && models["env"] == Mapping(env)
    requires LoadOverrides(Some(doc)).0.Ok? && k in env
    ensures var read := LoadOverrides(Some(doc)).0.value.env;
      && k in read
      && (env[k].Text? ==> read[k] == env[k].text)
      && (env[k] == Flag(true) ==> read[k] == "true") && (env[k] == Flag(false) ==> read[k] == "false")
      && (env[k].Null? ==> read[k] == "")
  {
  }

  /** The second reader refuses the parts that it looks at when they have other types. */
  lemma StatesRefuseOtherTypes(doc: Yaml, models: Block)
    ensures doc.Text? || doc.Sequence? ==> !HasStates(doc)
    ensures doc == Mapping(map["models" := Text("")]) ==> !HasStates(doc)
    ensures doc == Mapping(map["models" := Mapping(models)]) ==>
      && ("defaultEnabled" in models && models["defaultEnabled"].Text? ==> !HasStates(doc))
      && ("overrides" in models && models["overrides"].Sequence? ==> !HasStates(doc))
  {
  }

  lemma StatesRefuseOtherEntries(doc: Yaml, models: Block, entries: Block, k: string)
    requires doc == Mapping(map["models" := Mapping(models)])
    requires "overrides" in models && models["overrides"] == Mapping(entries) && k in entries
    ensures entries[k].Text? ==> !HasStates(doc)
    ensures entries[k].Mapping? && "enabled" in entries[k].entries && entries[k].entries["enabled"].Text? ==>
      !HasStates(doc)
  {
    assert EntriesOf(models) == entries;
    assert HasStates(doc) ==>
      IsBlock(EntriesOf(models)[k]) && IsFlag(Field(BlockOf(EntriesOf(models)[k]), ENABLED));
  }

  /** A missing file is no error, and an empty one has no overrides; neither disables anything. */
  lemma NothingWritten(name: string)
    ensures LoadOverrides(None) == (Ok(CBTOverrides(map[], None, Some(map[]))), false)
    ensures LoadOverrides(Some(Null)) == (Ok(CBTOverrides(map[], None, Some(map[]))), true)
    ensures !IsModelDisabled(None, name) && !IsModelDisabled(Some(CBTOverrides(map[], None, None)), name)
    ensures IsModelDisabled(Some(CBTOverrides(map[], Some(false), None)), name)
  {
    assert TypedOverrides(Null).env.Keys == {} && TypedOverrides(Null).overrides.value.Keys == {};
  }
}
