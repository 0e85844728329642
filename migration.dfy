/**
 * The v1 to v2 migration of src/utils/migration.ts: guarded by a flag in
 * `localStorage`, it turns every stored custom prompt into a style preset
 * of the preset table and then sets the flag.
 */
module Migration {
  import opened Wrappers
  import opened LocalStore

  const MigrationKey := "nano-banana-v2-migrated"
  const Completed := "completed"

  /** A preset as `addPreset` receives it (`Omit<StylePreset, 'id'>`); `createdAt` and the generated id are not modelled. */
  datatype NewPreset = NewPreset(name: string, description: string, icon: string, referenceImages: seq<string>)

  /** The `stylePresets` table, to which `addPreset` appends. */
  class PresetTable {
    var presets: seq<NewPreset>

    constructor(presets: seq<NewPreset>)
      ensures this.presets == presets
    {
      this.presets := presets;
    }

    /** `presetStorage.addPreset` */
    method AddPreset(preset: NewPreset)
      modifies this
      ensures presets == old(presets) + [preset]
    {
      presets := presets + [preset];
    }

    /** `db.stylePresets.clear()` */
    method Clear()
      modifies this
      ensures presets == []
    {
      presets := [];
    }
  }

  /** The preset a custom prompt becomes. */
  function ToPreset(prompt: StyleTemplate): (p: NewPreset)
    ensures p.name == prompt.title && p.description == prompt.prompt && p.icon == ""
    ensures prompt.image == "" <==> p.referenceImages == []
    ensures prompt.image != "" ==> p.referenceImages == [prompt.image]
  {
    NewPreset(prompt.title, prompt.prompt, "", if prompt.image != "" then [prompt.image] else [])
  }

  function ToPresets(prompts: seq<StyleTemplate>): (ps: seq<NewPreset>)
    ensures |ps| == |prompts|
    ensures forall k :: 0 <= k < |prompts| ==> ps[k] == ToPreset(prompts[k])
  {
    seq(|prompts|, k requires 0 <= k < |prompts| => ToPreset(prompts[k]))
  }

  /** `localStorage.getItem(MIGRATION_KEY) === 'completed'` */
  predicate IsCompleted(items: map<string, string>) {
    MigrationKey in items && items[MigrationKey] == Completed
  }

  /** What one call returns and leaves behind. */
  datatype MigrationRun = MigrationRun(migrated: bool, presetsCount: nat, items: map<string, string>, presets: seq<NewPreset>)

  /**
   * One call of `migrateV1ToV2` on the stored items, the custom prompts and
   * the preset table; `failAt` is the index of the first `addPreset` that
   * throws, if any.
   */
  function MigrationOutcome(items: map<string, string>, prompts: seq<StyleTemplate>, presets: seq<NewPreset>, failAt: Option<nat>): MigrationRun {
    if IsCompleted(items) then MigrationRun(false, 0, items, presets)
    else if failAt.Some? && failAt.value < |prompts| then
      MigrationRun(false, 0, items, presets + ToPresets(prompts[..failAt.value]))
    else MigrationRun(true, |prompts|, items[MigrationKey := Completed], presets + ToPresets(prompts))
  }

  /** With the flag set nothing is added and `{migrated: false, presetsCount: 0}` is returned. */
  lemma CompletedMigrationIsSkipped(items: map<string, string>, prompts: seq<StyleTemplate>, presets: seq<NewPreset>, failAt: Option<nat>)
    requires IsCompleted(items)
    ensures MigrationOutcome(items, prompts, presets, failAt) == MigrationRun(false, 0, items, presets)
  {
  }

  /** A run without a failing add appends one preset per prompt, in order, counts them and sets the flag. */
  lemma SuccessfulMigration(items: map<string, string>, prompts: seq<StyleTemplate>, presets: seq<NewPreset>, failAt: Option<nat>)
    requires !IsCompleted(items)
    requires failAt.None? || failAt.value >= |prompts|
    ensures var run := MigrationOutcome(items, prompts, presets, failAt);
      && run.migrated && run.presetsCount == |prompts|
      && IsCompleted(run.items) && run.items - {MigrationKey} == items - {MigrationKey}
      && |run.presets| == |presets| + |prompts| && run.presets[..|presets|] == presets
      && forall k :: 0 <= k < |prompts| ==> run.presets[|presets| + k] == ToPreset(prompts[k])
  {
    var run := MigrationOutcome(items, prompts, presets, failAt);
    assert run.presets[..|presets|] == presets;
  }

  /** A failing add returns `{false, 0}`, keeps the flag unset and keeps the presets added before it. */
  lemma FailedMigration(items: map<string, string>, prompts: seq<StyleTemplate>, presets: seq<NewPreset>, k: nat)
    requires !IsCompleted(items) && k < |prompts|
    ensures var run := MigrationOutcome(items, prompts, presets, Some(k));
      && !run.migrated && run.presetsCount == 0 && run.items == items && !IsCompleted(run.items)
      && run.presets == presets + ToPresets(prompts[..k])
  {
  }

  /** Idempotence: after a successful run a second run changes nothing and reports no migration. */
  lemma MigrationIdempotent(items: map<string, string>, prompts: seq<StyleTemplate>, presets: seq<NewPreset>,
                            first: Option<nat>, later: seq<StyleTemplate>, second: Option<nat>)
    requires MigrationOutcome(items, prompts, presets, first).migrated
    ensures var run := MigrationOutcome(items, prompts, presets, first);
      MigrationOutcome(run.items, later, run.presets, second) == MigrationRun(false, 0, run.items, run.presets)
  {
  }

  /** `migrateV1ToV2`; `failAt` says which `addPreset` throws, if any. */
  method MigrateV1ToV2(storage: LocalStorage, table: PresetTable, failAt: Option<nat>) returns (migrated: bool, presetsCount: nat)
    modifies storage, table
    ensures var run := MigrationOutcome(old(storage.items), old(storage.GetCustomPrompts()), old(table.presets), failAt);
      migrated == run.migrated && presetsCount == run.presetsCount && storage.items == run.items && table.presets == run.presets
    ensures storage.modelCache == old(storage.modelCache) && storage.customPrompts == old(storage.customPrompts)
    ensures storage.apiConfigs == old(storage.apiConfigs)
  {
    if storage.GetString(MigrationKey) == Completed {
      return false, 0;
    }
    presetsCount := 0;
    var customPrompts := storage.GetCustomPrompts();
    ghost var start := table.presets;
    var i := 0;
    while i < |customPrompts|
      invariant 0 <= i <= |customPrompts| && presetsCount == i
      invariant failAt.Some? ==> failAt.value >= i
      invariant table.presets == start + ToPresets(customPrompts[..i])
      invariant storage.items == old(storage.items) && storage.modelCache == old(storage.modelCache)
      invariant storage.customPrompts == old(storage.customPrompts) && storage.apiConfigs == old(storage.apiConfigs)
    {
      if failAt == Some(i) {
        return false, 0;
      }
      var preset := ToPreset(customPrompts[i]);
      table.AddPreset(preset);
      assert ToPresets(customPrompts[..i + 1]) == ToPresets(customPrompts[..i]) + [preset];
      presetsCount := presetsCount + 1;
      i := i + 1;
    }
    assert customPrompts[..i] == customPrompts;
    storage.SetItem(MigrationKey, Completed);
    return true, presetsCount;
  }

  /** `checkMigrationStatus` */
  function CheckMigrationStatus(storage: LocalStorage): (done: bool)
    reads storage
    ensures done <==> IsCompleted(storage.items)
  {
    storage.GetString(MigrationKey) == Completed
  }

  /** `resetMigration`: the flag is removed and the preset table emptied. */
  method ResetMigration(storage: LocalStorage, table: PresetTable)
    modifies storage, table
    ensures storage.items == old(storage.items) - {MigrationKey} && table.presets == []
    ensures !CheckMigrationStatus(storage)
    ensures storage.modelCache == old(storage.modelCache) && storage.customPrompts == old(storage.customPrompts)
    ensures storage.apiConfigs == old(storage.apiConfigs)
  {
    storage.RemoveItem(MigrationKey);
    table.Clear();
  }

  /** After a reset the migration runs again. */
  lemma ResetReenablesMigration(items: map<string, string>, prompts: seq<StyleTemplate>, failAt: Option<nat>)
    requires failAt.None?
    ensures MigrationOutcome(items - {MigrationKey}, prompts, [], failAt).migrated
    ensures MigrationOutcome(items - {MigrationKey}, prompts, [], failAt).presets == ToPresets(prompts)
  {
  }
}
