/** The records and lookup tables of the data dictionaries (package d2datadict),
    passed in as read-only values instead of global state. */
module D2datadict {

  /** A region archetype: the DT1 files valid for it. */
  datatype LevelTypeRecord = LevelTypeRecord(name: string, files: seq<string>)

  /** A preset of an archetype: its candidate DS1 layout files. */
  datatype LevelPresetRecord = LevelPresetRecord(name: string, files: seq<string>)

  /** A monster definition, reached from a placement through the act's monster presets. */
  datatype MonStatsRecord = MonStatsRecord(id: string)

  /** An object definition, reached from a placement through the object lookup table. */
  datatype ObjectRecord = ObjectRecord(id: int, name: string)

  /** The level dictionaries consulted by loading. */
  datatype LevelTables = LevelTables(
    levelTypes: map<int, LevelTypeRecord>,
    levelPresets: map<int, LevelPresetRecord>)

  /** The spawn dictionaries consulted when materialising entities.
      `monPresets[act][id]` names a monster (a Go map of slices);
      `objectLookup[(act, type, id)]` gives an object-table id;
      `canCreate` says whether the object constructor succeeds for a record. */
  datatype SpawnTables = SpawnTables(
    monPresets: map<int, seq<string>>,
    monStats: map<string, MonStatsRecord>,
    objectLookup: map<(int, int, int), int>,
    objects: map<int, ObjectRecord>,
    canCreate: ObjectRecord -> bool)

  /** The record of a known id; for an unknown id, a record with no files
      (the zero value a Go map yields). */
  function LevelTypeOf(t: LevelTables, id: int): (r: LevelTypeRecord)
    ensures id in t.levelTypes ==> r == t.levelTypes[id]
    ensures id !in t.levelTypes ==> r.files == []
  {
    if id in t.levelTypes then t.levelTypes[id] else LevelTypeRecord("", [])
  }

  function LevelPresetOf(t: LevelTables, id: int): (r: LevelPresetRecord)
    ensures id in t.levelPresets ==> r == t.levelPresets[id]
    ensures id !in t.levelPresets ==> r.files == []
  {
    if id in t.levelPresets then t.levelPresets[id] else LevelPresetRecord("", [])
  }
}
