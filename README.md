# Map stamps: a verified model

This project models the map-stamp assembler of the OpenDiablo2 engine
(`d2core/d2map/d2mapstamp/stamp.go`). A *stamp* is a prefabricated map
segment. Loading one takes a level type (region archetype) and a level preset.
It gathers the tiles of the level type's DT1 files and picks one of the
preset's DS1 layout files. Then it lays out that file's cell grid and tags
every cell with the region. The stamp answers size, cell and tile-key queries.
It also turns the layout's placements into creatures and objects at world
coordinates: a stamp at offset (ox, oy) starts at world tile (5·ox, 5·oy).

Modules follow the Go packages:

- `Wrappers`: `Option` and `Result`, which stand in for nil pointers and panics.
- `D2common`: waypoints (`Path`) and `Size`.
- `D2dt1`: the tile record a DT1 file decodes to.
- `D2ds1`: layout cells, placements, the decoded layout as a value (`Decoded`), and the in-memory layout `DS1`. Its grid is an array of row arrays, as Go's `[][]TileRecord`.
- `D2datadict`: the dictionary records and tables. They are passed in as values rather than read from globals.
- `D2mapentity`: the creature and object entities and their constructors.
- `D2mapstamp`: the core. File-list filtering, tile collection, variant choice, region stamping, `Stamp` with `Size`, `Tile`, `TileData` and `Entities`, `convertPaths` and `LoadStamp`.

Each loop of the source is a method proved against a recursive specification
function: `PickableFiles`/`Kept`, `CollectTiles`/`TileCollection`,
`Stamp.TileData`/`FirstMatch`, `ConvertPaths`/`Translated` and
`Stamp.Entities`/`SpawnAll`. Lemmas prove the properties of those functions.
`StampRegion` is the in-place nested loop over the grid.

Collaborators:

- The file archive and the two decoders become the `Archive` parameter. It holds the decoded tile lists and layouts by full path. A missing path is the archive's load error, which the source turns into a panic; here it is `Err(AssetNotFound(path))`.
- The random number `rand.Float64()` becomes the parameter `draw` in [0, 1).
- The object constructor's failure is decided by the opaque predicate `SpawnTables.canCreate`.

Behaviour of the code that the model keeps:

- Decode errors are discarded, so decoded data is an input.
- Every lookup miss during spawning is a skip, except the act's monster-preset index: out of range it panics, so `Spawn` returns `MonPresetOutOfRange`.

The random draw is the one place where the model departs from the code; see "## Findings".

## Model

| member | source | states |
|---|---|---|
| D2mapstamp.Kept | d2core/d2map/d2mapstamp/stamp.go:51-55 | the kept list is no longer than the input and holds only usable names (neither empty nor "0") |
| D2mapstamp.KeptMembership | d2core/d2map/d2mapstamp/stamp.go:36-37 | a name is kept exactly when it occurs in the list and is usable; the same rule serves tile and preset files |
| D2mapstamp.KeptAppend | d2core/d2map/d2mapstamp/stamp.go:51-55 | filtering a concatenation is concatenating the filtered parts, so kept names stay in file-list order |
| D2mapstamp.KeptCount | d2core/d2map/d2mapstamp/stamp.go:51-55 | a usable name is kept as many times as it occurs; an unusable one never |
| D2mapstamp.PickableFiles | d2core/d2map/d2mapstamp/stamp.go:49-55 | the appending loop yields exactly the kept candidate list |
| D2mapstamp.TileCollection | d2core/d2map/d2mapstamp/stamp.go:36-47 | the only way tile loading fails is a missing asset |
| D2mapstamp.TileCollectionIsConcatenation | d2core/d2map/d2mapstamp/stamp.go:36-47 | loading succeeds iff every kept tile file is in the archive, and then the tiles are the kept files' tiles concatenated in file-list order |
| D2mapstamp.TileCollectionFirstMissing | d2core/d2map/d2mapstamp/stamp.go:36-41 | a failed load reports the first usable tile file the archive lacks, every earlier usable one being present |
| D2mapstamp.TileCollectionErrorSticks | d2core/d2map/d2mapstamp/stamp.go:38-41 | a failure on a prefix of the tile files is the outcome of the whole load (the panic ends it) |
| D2mapstamp.CollectTiles | d2core/d2map/d2mapstamp/stamp.go:36-47 | the appending loop computes TileCollection, returning early on the first missing file |
| D2datadict.LevelTypeOf | d2core/d2map/d2mapstamp/stamp.go:32 | a known level type's record, or a record with no files for an unknown id |
| D2datadict.LevelPresetOf | d2core/d2map/d2mapstamp/stamp.go:33 | a known level preset's record, or a record with no files for an unknown id |
| D2mapstamp.UnknownPresetHasNoCandidates | d2core/d2map/d2mapstamp/stamp.go:33-64 | an unknown level preset leaves no candidate layout, so the choice fails with NoLevelFiles |
| D2mapstamp.UnknownLevelTypeHasNoTiles | d2core/d2map/d2mapstamp/stamp.go:32-47 | an unknown level type contributes no tile files, so tile collection succeeds with no tiles |
| D2mapstamp.RoundedDrawIndex | d2core/d2map/d2mapstamp/stamp.go:57 | the draw as written is an index in [0, n) whenever there are n > 0 candidates; with none it is -1 or 0 |
| D2mapstamp.RoundedDrawIndexEndsHalfWeight | d2core/d2map/d2mapstamp/stamp.go:57 | with three candidates the draw as written picks index 0 on [0, 1/4), 1 on [1/4, 3/4) and 2 on [3/4, 1): the ends get half the weight |
| D2mapstamp.UniformDrawIndex | d2core/d2map/d2mapstamp/stamp.go:57 | the corrected draw is an index in [0, n) whenever n > 0 |
| D2mapstamp.UniformDrawIndexPreimage | d2core/d2map/d2mapstamp/stamp.go:57 | the corrected draw picks k exactly on [k/n, (k+1)/n), an interval of the same length for every k |
| D2mapstamp.SelectLevelFile | d2core/d2map/d2mapstamp/stamp.go:57-66 | fails with NoLevelFiles exactly when no candidate remains; otherwise the result is a candidate, and it is candidates[fileIndex] whenever 0 <= fileIndex < n |
| D2mapstamp.WithRegion | d2core/d2map/d2mapstamp/stamp.go:75-80 | retagging keeps the grid's shape and every cell's other fields and sets every region tag |
| D2mapstamp.StampRegion | d2core/d2map/d2mapstamp/stamp.go:75-80 | the in-place nested loop over every row, whatever its length, sets each cell to its old value with the new region tag |
| D2mapstamp.Stamp.constructor | d2core/d2map/d2mapstamp/stamp.go:20-27 | a stamp holds the region path, the two records, the tiles and the layout it is given |
| D2ds1.DS1.constructor | d2core/d2map/d2mapstamp/stamp.go:73 | the loaded layout holds the decoded header, placements and grid in fresh, distinct row arrays |
| D2mapstamp.LoadStamp | d2core/d2map/d2mapstamp/stamp.go:29-83 | tile failures propagate; NoLevelFiles iff tiles load and no candidate remains; a missing layout names the chosen path; on success the stamp is fresh, its tiles are TileCollection's, its path is SelectLevelFile's, its Size is the layout's declared size, and its grid is the decoded grid with every cell tagged levelType |
| D2mapstamp.TileHasRegion | d2core/d2map/d2mapstamp/stamp.go:105-108 | every cell Tile(x, y) of a loaded stamp carries the requested region tag and its decoded layers |
| D2mapstamp.FirstMatch | d2core/d2map/d2mapstamp/stamp.go:111-119 | None iff no tile has the key (style, sequence, type); otherwise the tile at the first index that has it |
| D2mapstamp.FirstMatchAppend | d2core/d2map/d2mapstamp/stamp.go:111-119 | over a concatenation the earlier part wins, so with file-ordered collection the first declared tile wins |
| D2mapstamp.Stamp.TileData | d2core/d2map/d2mapstamp/stamp.go:110-119 | the scan with early return yields FirstMatch of the stamp's tiles |
| D2mapstamp.Translated | d2core/d2map/d2mapstamp/stamp.go:165-174 | same length, each action kept, each waypoint moved to (X + 5·ox, Y + 5·oy) |
| D2mapstamp.TranslatedInverse | d2core/d2map/d2mapstamp/stamp.go:165-174 | translating by the opposite offset gives the local path back |
| D2mapstamp.ConvertPaths | d2core/d2map/d2mapstamp/stamp.go:165-174 | filling the preallocated array index by index yields Translated |
| D2mapstamp.Spawn | d2core/d2map/d2mapstamp/stamp.go:125-159 | a spawned entity sits at (5·ox + X, 5·oy + Y); it is a creature iff the placement is a character, and then it carries the stats named by the act's preset, direction 0 and Translated paths; an object carries the record its lookup key names; other kinds, an unknown monster name, an unknown lookup key and an unknown object id give nothing; a character fails iff the act's preset index is out of range; an item whose key and record resolve and can be created yields that object at the translated position; an item fails iff its record exists and cannot be created; a failing character reports MonPresetOutOfRange with its act and id, a failing item ObjectCreationFailed with its record's id |
| D2mapstamp.SpawnKeepsWaypointOffsets | d2core/d2map/d2mapstamp/stamp.go:132-133 | a creature's waypoints keep their offsets from the creature, so both live in the same world space |
| D2mapstamp.SpawnAll | d2core/d2map/d2mapstamp/stamp.go:122-163 | at most one entity per placement |
| D2mapstamp.SpawnAllAppend | d2core/d2map/d2mapstamp/stamp.go:125-160 | materialising a concatenation is materialising each part in turn: output follows declaration order, the first failure wins |
| D2mapstamp.SpawnAllSkipsMiss | d2core/d2map/d2mapstamp/stamp.go:128-149 | a placement that contributes nothing can be removed without changing the outcome: a miss neither adds an entity nor stops the loop |
| D2mapstamp.SpawnAllOrigin | d2core/d2map/d2mapstamp/stamp.go:125-160 | every entity of the result is what one placement of the layout spawns |
| D2mapstamp.SpawnAllOkEach | d2core/d2map/d2mapstamp/stamp.go:125-160 | a pass that succeeds has every placement succeed |
| D2mapstamp.SpawnAllFirstFailure | d2core/d2map/d2mapstamp/stamp.go:125-160 | a failed pass reports the failure of the first placement that fails, every earlier placement succeeding |
| D2mapstamp.SpawnAllErrorSticks | d2core/d2map/d2mapstamp/stamp.go:150-155 | a failure within a prefix of the placements is the outcome of the whole pass |
| D2mapstamp.Stamp.Entities | d2core/d2map/d2mapstamp/stamp.go:121-163 | the loop over the layout's placements computes SpawnAll for the layout's act and the given offset |

## Left out

- Asset loading and the DT1/DS1 binary decoders: the archive is a map from full path to decoded data; a decode error, which the source discards, has no counterpart.
- The floating-point draw: `draw` is a real number in [0, 1), and float64 rounding of the product is not modelled.
- SelectLevelFile: draws with floor(n·r) (`UniformDrawIndex`) in place of the source's rounding of (n − 1)·r (`RoundedDrawIndex`), so for the same draw it may pick another candidate than the source does: with n = 3 and draw 0.3 the source picks candidates[1] and the model candidates[0] (see "## Findings").
- LevelTypeOf, LevelPresetOf: an unknown id gives a record with no files, the zero value of a Go map; the tables' declarations are not part of this model, and if they are slices an unknown id panics instead.
- Integer width: Go's `int` and `int32` arithmetic (5·ox + X, waypoint shifts) is unbounded here; overflow is not modelled.
- Stamp.Size, Stamp.Tile: plain reads of the layout's header and grid with no contract of their own; what they report for a loaded stamp is stated by LoadStamp (the size) and TileHasRegion (each cell).
- Stamp.Tile: returns the cell as a value, whereas the source returns a pointer through which callers may change the cell.
- Stamp.TileData: returns the tile as a value, whereas the source returns a pointer to the loop variable's copy.
- Stamp.Size: reports the declared header size only; nothing relates it to the grid's lengths, as nothing does in the source.
- The getters LevelPreset, LevelType and RegionPath: the fields are public constants of `Stamp` and are read directly.
- The data dictionaries' contents, CreateNPC and CreateObject: opaque records, partial maps and a creation predicate; rendering, palettes and the MapEntity interface are not part of this model.
- Concurrency: none in the source.

## Findings

| source | as written | input that shows it | evidently intended | confidence | as-written member | corrected member |
|---|---|---|---|---|---|---|
| d2core/d2map/d2mapstamp/stamp.go:57 | the variant index rounds (n − 1)·r to the nearest integer for r uniform in [0, 1) | n = 3: r in [0, 0.25) gives 0, [0.25, 0.75) gives 1, [0.75, 1) gives 2, so the first and last layouts are drawn half as often as the middle one | each of the n candidates drawn with probability 1/n, as floor(n·r) does | medium, not executed | D2mapstamp.RoundedDrawIndexEndsHalfWeight | D2mapstamp.UniformDrawIndexPreimage |

`SelectLevelFile`, and through it `LoadStamp`, uses the corrected draw `UniformDrawIndex`.
The as-written draw is `RoundedDrawIndex`.
