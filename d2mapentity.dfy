/** The entities a stamp hands to the world (packages d2mapentity and d2object).
    Their constructors are modelled as functions returning records that carry
    a position and, for creatures, a path. */
module D2mapentity {
  import opened Wrappers
  import opened D2common
  import opened D2datadict

  datatype Entity =
    | Npc(x: int, y: int, stats: MonStatsRecord, direction: int, paths: seq<Path>)
    | MapObject(x: int, y: int, record: ObjectRecord)

  datatype CreateError = CreateError(objectId: int)

  /** A creature at world tile (x, y), facing `direction`, with no path yet. */
  function CreateNPC(x: int, y: int, stats: MonStatsRecord, direction: int): (e: Entity)
  {
    Npc(x, y, stats, direction, [])
  }

  /** Attaches a path to a creature; other entities are returned as they are. */
  function SetPaths(e: Entity, paths: seq<Path>): (r: Entity)
  {
    if e.Npc? then e.(paths := paths) else e
  }

  /** An object at world tile (x, y), or the constructor's failure. */
  function CreateObject(x: int, y: int, record: ObjectRecord, canCreate: ObjectRecord -> bool)
    : (r: Result<Entity, CreateError>)
  {
    if canCreate(record) then Ok(MapObject(x, y, record)) else Err(CreateError(record.id))
  }
}
