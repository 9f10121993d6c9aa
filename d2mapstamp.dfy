/** The map-stamp assembler (package d2mapstamp): loads a prefabricated map
    segment from its tile files and one of its preset's layout files, tags
    every layout cell with the region, answers tile lookups and materialises
    the creatures and objects of the layout at world coordinates. */
module D2mapstamp {
  import opened Wrappers
  import opened D2common
  import opened D2dt1
  import opened D2ds1
  import opened D2datadict
  import opened D2mapentity

  /** Directory under which both tile (DT1) and layout (DS1) files are looked up. */
  const TilesDir := "/data/global/tiles/"

  /** World tiles per stamp-grid unit: a stamp at offset (ox, oy) starts at tile (5 ox, 5 oy). */
  const TilesPerStampUnit := 5

  /** Placement kinds of d2enum.ObjectType. */
  const ObjectTypeCharacter := 1
  const ObjectTypeItem := 2

  datatype LoadError =
    | AssetNotFound(path: string)   // the archive has no such file
    | NoLevelFiles                  // the preset names no usable layout file

  datatype SpawnError =
    | MonPresetOutOfRange(act: int, id: int)   // indexing the act's monster presets panics
    | ObjectCreationFailed(objectId: int)      // the object constructor returned an error

  /** What the archive yields once decoded: tile lists and layouts by full path. */
  datatype Archive = Archive(dt1: map<string, seq<Tile>>, ds1: map<string, Decoded>)

  // ---------------------------------------------------------------------------
  // File lists: the empty string and the "0" sentinel mean "no file".
  // ---------------------------------------------------------------------------

  predicate Usable(f: string)
  {
    |f| != 0 && f != "" && f != "0"
  }

  /** The usable entries of a file list, in list order. */
  function Kept(files: seq<string>): (r: seq<string>)
    ensures |r| <= |files|
    ensures forall f :: f in r ==> Usable(f)
    decreases |files|
  {
    if files == [] then []
    else
      var last := files[|files| - 1];
      Kept(files[..|files| - 1]) + (if Usable(last) then [last] else [])
  }

  /** An entry is kept exactly when it is in the list and usable. */
  lemma {:induction false} KeptMembership(files: seq<string>, f: string)
    ensures f in Kept(files) <==> f in files && Usable(f)
  {
    if files != [] {
      var init := files[..|files| - 1];
      KeptMembership(init, f);
      assert files == init + [files[|files| - 1]];
    }
  }

  /** Filtering commutes with concatenation, so the kept entries keep their order. */
  lemma {:induction false} KeptAppend(a: seq<string>, b: seq<string>)
    ensures Kept(a + b) == Kept(a) + Kept(b)
    decreases |b|
  {
    if b == [] {
      assert a + b == a;
    } else {
      var init, last := b[..|b| - 1], b[|b| - 1];
      var ab := a + b;
      var tail := if Usable(last) then [last] else [];
      assert ab[..|ab| - 1] == a + init;
      assert ab[|ab| - 1] == last;
      assert Kept(ab) == Kept(a + init) + tail;
      assert Kept(b) == Kept(init) + tail;
      KeptAppend(a, init);
    }
  }

  /** A usable entry is kept as often as it occurs; an unusable one never. */
  lemma {:induction false} KeptCount(files: seq<string>, f: string)
    ensures multiset(Kept(files))[f] == if Usable(f) then multiset(files)[f] else 0
    decreases |files|
  {
    if files != [] {
      var init := files[..|files| - 1];
      KeptCount(init, f);
      assert files == init + [files[|files| - 1]];
    }
  }

  /** The loop of LoadStamp that collects the preset's candidate layout files. */
  method PickableFiles(files: seq<string>) returns (picks: seq<string>)
    ensures picks == Kept(files)
  {
    picks := [];
    for i := 0 to |files|
      invariant picks == Kept(files[..i])
    {
      assert files[..i + 1][..i] == files[..i];
      if Usable(files[i]) {
        picks := picks + [files[i]];
      }
    }
    assert files[..|files|] == files;
  }

  // ---------------------------------------------------------------------------
  // The tile collection.
  // ---------------------------------------------------------------------------

  /** The tile loop of LoadStamp as a function: each usable file is loaded from
      TilesDir in list order and its tiles appended; the first file the archive
      lacks aborts the load. */
  function TileCollection(files: seq<string>, dt1: map<string, seq<Tile>>): (r: Result<seq<Tile>, LoadError>)
    ensures r.Err? ==> r.error.AssetNotFound?
    decreases |files|
  {
    if files == [] then Ok([])
    else
      var last := files[|files| - 1];
      match TileCollection(files[..|files| - 1], dt1)
      case Err(e) => Err(e)
      case Ok(ts) =>
        if !Usable(last) then Ok(ts)
        else if TilesDir + last !in dt1 then Err(AssetNotFound(TilesDir + last))
        else Ok(ts + dt1[TilesDir + last])
  }

  ghost predicate AllLoaded(kept: seq<string>, dt1: map<string, seq<Tile>>)
  {
    forall f :: f in kept ==> TilesDir + f in dt1
  }

  /** Reference definition: the tiles of the given files, concatenated in order. */
  function Concatenated(kept: seq<string>, dt1: map<string, seq<Tile>>): seq<Tile>
    requires AllLoaded(kept, dt1)
    decreases |kept|
  {
    if kept == [] then []
    else Concatenated(kept[..|kept| - 1], dt1) + dt1[TilesDir + kept[|kept| - 1]]
  }

  /** Loading succeeds exactly when every kept tile file is in the archive, and
      then yields the concatenation of the kept files' tiles in list order. */
  lemma {:induction false} TileCollectionIsConcatenation(files: seq<string>, dt1: map<string, seq<Tile>>)
    ensures TileCollection(files, dt1).Ok? <==> AllLoaded(Kept(files), dt1)
    ensures TileCollection(files, dt1).Ok? ==>
              TileCollection(files, dt1).value == Concatenated(Kept(files), dt1)
    decreases |files|
  {
    if files != [] {
      var init, last := files[..|files| - 1], files[|files| - 1];
      TileCollectionIsConcatenation(init, dt1);
      var k := Kept(init);
      if Usable(last) && TileCollection(files, dt1).Ok? {
        var k' := k + [last];
        assert Kept(files) == k';
        assert k'[..|k'| - 1] == k && k'[|k'| - 1] == last;
        assert AllLoaded(k', dt1) by {
          forall f | f in k' ensures TilesDir + f in dt1 {
            if f != last { assert f in k; }
          }
        }
        assert Concatenated(k', dt1) == Concatenated(k, dt1) + dt1[TilesDir + last];
      } else if Usable(last) {
        assert last in Kept(files);
      } else {
        assert Kept(files) == k;
      }
    }
  }

  /** A failed load names the first usable file the archive lacks. */
  lemma {:induction false} TileCollectionFirstMissing(files: seq<string>, dt1: map<string, seq<Tile>>)
    requires TileCollection(files, dt1).Err?
    ensures exists i :: 0 <= i < |files| && FirstMissing(files, dt1, i)
                        && TileCollection(files, dt1).error == AssetNotFound(TilesDir + files[i])
    decreases |files|
  {
    var init, last := files[..|files| - 1], files[|files| - 1];
    if TileCollection(init, dt1).Err? {
      TileCollectionFirstMissing(init, dt1);
      var i :| 0 <= i < |init| && FirstMissing(init, dt1, i)
               && TileCollection(init, dt1).error == AssetNotFound(TilesDir + init[i]);
      assert FirstMissing(files, dt1, i);
    } else {
      TileCollectionIsConcatenation(init, dt1);
      forall j | 0 <= j < |files| - 1 && Usable(files[j])
        ensures TilesDir + files[j] in dt1
      {
        assert files[j] == init[j];
        KeptMembership(init, files[j]);
      }
      assert FirstMissing(files, dt1, |files| - 1);
    }
  }

  ghost predicate FirstMissing(files: seq<string>, dt1: map<string, seq<Tile>>, i: int)
    requires 0 <= i < |files|
  {
    && Usable(files[i]) && TilesDir + files[i] !in dt1
    && forall j :: 0 <= j < i && Usable(files[j]) ==> TilesDir + files[j] in dt1
  }

  /** Once a prefix of the files fails to load, the whole list fails the same way. */
  lemma {:induction false} TileCollectionErrorSticks(files: seq<string>, k: nat, dt1: map<string, seq<Tile>>)
    requires k <= |files| && TileCollection(files[..k], dt1).Err?
    ensures TileCollection(files, dt1) == TileCollection(files[..k], dt1)
    decreases |files| - k
  {
    if k < |files| {
      assert files[..k + 1][..k] == files[..k];
      TileCollectionErrorSticks(files, k + 1, dt1);
    } else {
      assert files[..k] == files;
    }
  }

  /** The tile loop of LoadStamp. */
  method CollectTiles(files: seq<string>, dt1: map<string, seq<Tile>>) returns (r: Result<seq<Tile>, LoadError>)
    ensures r == TileCollection(files, dt1)
  {
    var tiles: seq<Tile> := [];
    for i := 0 to |files|
      invariant TileCollection(files[..i], dt1) == Ok(tiles)
    {
      assert files[..i + 1][..i] == files[..i];
      var f := files[i];
      if Usable(f) {
        var path := TilesDir + f;
        if path !in dt1 {
          TileCollectionErrorSticks(files, i + 1, dt1);
          return Err(AssetNotFound(path));
        }
        tiles := tiles + dt1[path];
      }
    }
    assert files[..|files|] == files;
    return Ok(tiles);
  }

  // ---------------------------------------------------------------------------
  // Choosing the layout variant.
  // ---------------------------------------------------------------------------

  /** The draw as written: (n - 1) r rounded to the nearest integer, halves
      away from zero, for r in [0, 1) (real numbers stand for floats). With
      candidates it stays in range; with none it may be -1, which is harmless
      only because the empty list is rejected before it is indexed. */
  function RoundedDrawIndex(n: nat, r: real): (i: int)
    requires 0.0 <= r < 1.0
    ensures n > 0 ==> 0 <= i < n
    ensures n == 0 ==> -1 <= i <= 0
  {
    var x := (n - 1) as real * r;
    assert n > 0 ==> 0.0 <= x <= (n - 1) as real by {
      if n > 0 {
        var m := (n - 1) as real;
        assert 0.0 <= m * r <= m * 1.0;
      }
    }
    if x >= 0.0 then (x + 0.5).Floor else -((0.5 - x).Floor)
  }

  /** With three candidates, the written draw picks the first only for r below 1/4
      and the last only from 3/4 on, while the middle one takes half of [0, 1). */
  lemma RoundedDrawIndexEndsHalfWeight(r: real)
    requires 0.0 <= r < 1.0
    ensures RoundedDrawIndex(3, r) == 0 <==> r < 0.25
    ensures RoundedDrawIndex(3, r) == 1 <==> 0.25 <= r < 0.75
    ensures RoundedDrawIndex(3, r) == 2 <==> 0.75 <= r
  {
    var x := 2.0 * r;
    assert RoundedDrawIndex(3, r) == (x + 0.5).Floor;
  }

  /** The uniform draw: floor(n r) for r in [0, 1). */
  function UniformDrawIndex(n: nat, r: real): (i: int)
    requires 0.0 <= r < 1.0
    ensures n > 0 ==> 0 <= i < n
  {
    var m := n as real;
    assert n > 0 ==> m * r < m by {
      if n > 0 { assert m * (1.0 - r) > 0.0; }
    }
    (m * r).Floor
  }

  /** Every index k < n is drawn for exactly the r in [k/n, (k+1)/n), an
      interval of length 1/n, the same for every k. */
  lemma UniformDrawIndexPreimage(n: nat, r: real, k: int)
    requires n > 0 && 0.0 <= r < 1.0
    ensures UniformDrawIndex(n, r) == k <==>
              (k as real) / (n as real) <= r < ((k + 1) as real) / (n as real)
  {
  }

  /** The choice of LoadStamp: an in-range explicit index wins over the draw,
      and an empty candidate list is fatal. `draw` stands for rand.Float64(). */
  function SelectLevelFile(candidates: seq<string>, fileIndex: int, draw: real): (r: Result<string, LoadError>)
    requires 0.0 <= draw < 1.0
    ensures r.Err? <==> candidates == []
    ensures r.Err? ==> r.error == NoLevelFiles
    ensures r.Ok? ==> r.value in candidates
    ensures 0 <= fileIndex < |candidates| ==> r == Ok(candidates[fileIndex])
  {
    var n := |candidates|;
    var levelIndex := if 0 <= fileIndex < n then fileIndex else UniformDrawIndex(n, draw);
    if n == 0 then Err(NoLevelFiles) else Ok(candidates[levelIndex])
  }

  /** An unknown level preset has no files, so no layout can be chosen and the
      load stops with NoLevelFiles. */
  lemma UnknownPresetHasNoCandidates(t: LevelTables, id: int, fileIndex: int, draw: real)
    requires id !in t.levelPresets && 0.0 <= draw < 1.0
    ensures SelectLevelFile(Kept(LevelPresetOf(t, id).files), fileIndex, draw) == Err(NoLevelFiles)
  {
  }

  /** An unknown level type has no tile files, so its tile collection is empty. */
  lemma UnknownLevelTypeHasNoTiles(t: LevelTables, id: int, dt1: map<string, seq<Tile>>)
    requires id !in t.levelTypes
    ensures TileCollection(LevelTypeOf(t, id).files, dt1) == Ok([])
  {
  }

  // ---------------------------------------------------------------------------
  // Region stamping.
  // ---------------------------------------------------------------------------

  /** The grid with every cell's region tag replaced. */
  function WithRegion(g: seq<seq<TileRecord>>, regionType: int): (h: seq<seq<TileRecord>>)
    ensures |h| == |g|
    ensures forall r :: 0 <= r < |g| ==> |h[r]| == |g[r]|
    ensures forall r, c :: 0 <= r < |g| && 0 <= c < |g[r]| ==>
              h[r][c].regionType == regionType && h[r][c].layers == g[r][c].layers
  {
    seq(|g|, r requires 0 <= r < |g| =>
      seq(|g[r]|, c requires 0 <= c < |g[r]| => g[r][c].(regionType := regionType)))
  }

  /** The nested loop of LoadStamp that tags every cell of the grid in place. */
  method StampRegion(ds1: DS1, regionType: int)
    requires ds1.Valid()
    modifies ds1.Rows()
    ensures forall r, c :: 0 <= r < ds1.tiles.Length && 0 <= c < ds1.tiles[r].Length ==>
              ds1.tiles[r][c] == old(ds1.tiles[r][c]).(regionType := regionType)
  {
    var grid := ds1.tiles;
    for rx := 0 to grid.Length
      invariant forall r, c :: 0 <= r < rx && 0 <= c < grid[r].Length ==>
                  grid[r][c] == old(grid[r][c]).(regionType := regionType)
      invariant forall r, c :: rx <= r < grid.Length && 0 <= c < grid[r].Length ==>
                  grid[r][c] == old(grid[r][c])
    {
      var row := grid[rx];
      for x := 0 to row.Length
        invariant forall c :: 0 <= c < x ==> row[c] == old(row[c]).(regionType := regionType)
        invariant forall c :: x <= c < row.Length ==> row[c] == old(row[c])
        invariant forall r, c :: 0 <= r < rx && 0 <= c < grid[r].Length ==>
                    grid[r][c] == old(grid[r][c]).(regionType := regionType)
        invariant forall r, c :: rx < r < grid.Length && 0 <= c < grid[r].Length ==>
                    grid[r][c] == old(grid[r][c])
      {
        row[x] := row[x].(regionType := regionType);
      }
    }
  }

  // ---------------------------------------------------------------------------
  // Tile lookup.
  // ---------------------------------------------------------------------------

  predicate Matches(t: Tile, style: int, sequence: int, tileType: int)
  {
    t.style == style && t.sequence == sequence && t.tileType == tileType
  }

  /** The first tile with the given key, or None when no tile has it. */
  function FirstMatch(ts: seq<Tile>, style: int, sequence: int, tileType: int): (r: Option<Tile>)
    ensures r.None? <==> forall i :: 0 <= i < |ts| ==> !Matches(ts[i], style, sequence, tileType)
    ensures r.Some? ==> exists i :: 0 <= i < |ts| && ts[i] == r.value && Matches(ts[i], style, sequence, tileType)
                                    && forall j :: 0 <= j < i ==> !Matches(ts[j], style, sequence, tileType)
  {
    if ts == [] then None
    else if Matches(ts[0], style, sequence, tileType) then Some(ts[0])
    else
      var r := FirstMatch(ts[1..], style, sequence, tileType);
      assert forall i :: 1 <= i < |ts| ==> ts[i] == ts[1..][i - 1];
      r
  }

  /** Across a concatenation the earlier part wins: with the tile collection
      this is "first declared file wins" for duplicate keys. */
  lemma {:induction false} FirstMatchAppend(a: seq<Tile>, b: seq<Tile>, style: int, sequence: int, tileType: int)
    ensures FirstMatch(a + b, style, sequence, tileType) ==
              if FirstMatch(a, style, sequence, tileType).Some? then FirstMatch(a, style, sequence, tileType)
              else FirstMatch(b, style, sequence, tileType)
    decreases |a|
  {
    if a != [] {
      assert (a + b)[0] == a[0];
      assert (a + b)[1..] == a[1..] + b;
      FirstMatchAppend(a[1..], b, style, sequence, tileType);
    } else {
      assert a + b == b;
    }
  }

  // ---------------------------------------------------------------------------
  // Entities.
  // ---------------------------------------------------------------------------

  function Shifted(p: Path, ox: int, oy: int): Path
  {
    Path(p.x + ox * TilesPerStampUnit, p.y + oy * TilesPerStampUnit, p.action)
  }

  /** The waypoints moved from stamp-local tiles to world tiles. */
  function Translated(ox: int, oy: int, paths: seq<Path>): (r: seq<Path>)
    ensures |r| == |paths|
    ensures forall i :: 0 <= i < |paths| ==>
              && r[i].action == paths[i].action
              && r[i].x == paths[i].x + ox * TilesPerStampUnit
              && r[i].y == paths[i].y + oy * TilesPerStampUnit
    decreases |paths|
  {
    if paths == [] then []
    else Translated(ox, oy, paths[..|paths| - 1]) + [Shifted(paths[|paths| - 1], ox, oy)]
  }

  /** Translating back by the opposite offset restores the local path. */
  lemma TranslatedInverse(ox: int, oy: int, paths: seq<Path>)
    ensures Translated(-ox, -oy, Translated(ox, oy, paths)) == paths
  {
    var there := Translated(ox, oy, paths);
    var back := Translated(-ox, -oy, there);
    forall i | 0 <= i < |paths| ensures back[i] == paths[i] {
      assert there[i].x == paths[i].x + ox * TilesPerStampUnit;
      assert back[i].x == there[i].x + (-ox) * TilesPerStampUnit;
      assert there[i].y == paths[i].y + oy * TilesPerStampUnit;
      assert back[i].y == there[i].y + (-oy) * TilesPerStampUnit;
    }
  }

  /** convertPaths: fills a result array of the same length, one waypoint at a time. */
  method ConvertPaths(ox: int, oy: int, paths: seq<Path>) returns (result: seq<Path>)
    ensures result == Translated(ox, oy, paths)
  {
    var a := new Path[|paths|];
    for i := 0 to |paths|
      invariant forall j :: 0 <= j < i ==> a[j] == Shifted(paths[j], ox, oy)
    {
      a[i] := a[i].(action := paths[i].action);
      a[i] := a[i].(x := paths[i].x + ox * TilesPerStampUnit);
      a[i] := a[i].(y := paths[i].y + oy * TilesPerStampUnit);
    }
    result := a[..];
  }

  /** What one placement of a layout of act `act`, stamped at offset (ox, oy),
      contributes: an entity, nothing (a lookup miss or another kind), or a panic. */
  function Spawn(o: Object, act: int, ox: int, oy: int, t: SpawnTables): (r: Result<Option<Entity>, SpawnError>)
    ensures o.objectType != ObjectTypeCharacter && o.objectType != ObjectTypeItem ==> r == Ok(None)
    ensures r.Ok? && r.value.Some? ==>
              && r.value.value.x == ox * TilesPerStampUnit + o.x
              && r.value.value.y == oy * TilesPerStampUnit + o.y
              && (r.value.value.Npc? <==> o.objectType == ObjectTypeCharacter)
    ensures r.Ok? && r.value.Some? && r.value.value.Npc? ==>
              r.value.value.paths == Translated(ox, oy, o.paths)
    ensures o.objectType == ObjectTypeCharacter ==>
              (r.Err? <==> act !in t.monPresets || !(0 <= o.id < |t.monPresets[act]|))
    ensures o.objectType == ObjectTypeCharacter && r.Ok? ==>
              (r.value.None? <==> t.monPresets[act][o.id] !in t.monStats)
    ensures r.Ok? && r.value.Some? && r.value.value.Npc? ==>
              && act in t.monPresets && 0 <= o.id < |t.monPresets[act]|
              && t.monPresets[act][o.id] in t.monStats
              && r.value.value.stats == t.monStats[t.monPresets[act][o.id]]
              && r.value.value.direction == 0
    ensures o.objectType == ObjectTypeItem && (act, o.objectType, o.id) !in t.objectLookup ==> r == Ok(None)
    ensures && o.objectType == ObjectTypeItem && (act, o.objectType, o.id) in t.objectLookup
            && t.objectLookup[(act, o.objectType, o.id)] !in t.objects
            ==> r == Ok(None)
    ensures o.objectType == ObjectTypeItem ==>
              (r.Err? <==> && (act, o.objectType, o.id) in t.objectLookup
                           && t.objectLookup[(act, o.objectType, o.id)] in t.objects
                           && !t.canCreate(t.objects[t.objectLookup[(act, o.objectType, o.id)]]))
    ensures r.Ok? && r.value.Some? && r.value.value.MapObject? ==>
              && (act, o.objectType, o.id) in t.objectLookup
              && t.objectLookup[(act, o.objectType, o.id)] in t.objects
              && r.value.value.record == t.objects[t.objectLookup[(act, o.objectType, o.id)]]
    ensures && o.objectType == ObjectTypeItem && (act, o.objectType, o.id) in t.objectLookup
            && t.objectLookup[(act, o.objectType, o.id)] in t.objects
            && t.canCreate(t.objects[t.objectLookup[(act, o.objectType, o.id)]])
            ==> r == Ok(Some(MapObject(ox * TilesPerStampUnit + o.x, oy * TilesPerStampUnit + o.y,
                                       t.objects[t.objectLookup[(act, o.objectType, o.id)]])))
    ensures r.Err? && o.objectType == ObjectTypeCharacter ==> r.error == MonPresetOutOfRange(act, o.id)
    ensures r.Err? && o.objectType == ObjectTypeItem ==>
              r.error == ObjectCreationFailed(t.objects[t.objectLookup[(act, o.objectType, o.id)]].id)
  {
    var x, y := ox * TilesPerStampUnit + o.x, oy * TilesPerStampUnit + o.y;
    if o.objectType == ObjectTypeCharacter then
      if act !in t.monPresets || !(0 <= o.id < |t.monPresets[act]|) then
        Err(MonPresetOutOfRange(act, o.id))
      else
        var place := t.monPresets[act][o.id];
        if place !in t.monStats then Ok(None)
        else Ok(Some(SetPaths(CreateNPC(x, y, t.monStats[place], 0), Translated(ox, oy, o.paths))))
    else if o.objectType == ObjectTypeItem then
      var key := (act, o.objectType, o.id);
      if key !in t.objectLookup then Ok(None)
      else
        var objectId := t.objectLookup[key];
        if objectId !in t.objects then Ok(None)
        else
          match CreateObject(x, y, t.objects[objectId], t.canCreate)
          case Err(e) => Err(ObjectCreationFailed(e.objectId))
          case Ok(entity) => Ok(Some(entity))
    else Ok(None)
  }

  /** A creature's waypoints keep their offsets from the creature: position and
      path are moved into the same world space. */
  lemma SpawnKeepsWaypointOffsets(o: Object, act: int, ox: int, oy: int, t: SpawnTables)
    requires Spawn(o, act, ox, oy, t).Ok? && Spawn(o, act, ox, oy, t).value.Some?
    requires Spawn(o, act, ox, oy, t).value.value.Npc?
    ensures var e := Spawn(o, act, ox, oy, t).value.value;
            && |e.paths| == |o.paths|
            && forall i :: 0 <= i < |o.paths| ==>
                 e.paths[i].x - e.x == o.paths[i].x - o.x && e.paths[i].y - e.y == o.paths[i].y - o.y
  {
  }

  /** The loop of Entities as a function: placements in declaration order,
      at most one entity each; the first panic ends the pass. */
  function SpawnAll(objs: seq<Object>, act: int, ox: int, oy: int, t: SpawnTables): (r: Result<seq<Entity>, SpawnError>)
    ensures r.Ok? ==> |r.value| <= |objs|
    decreases |objs|
  {
    if objs == [] then Ok([])
    else
      match SpawnAll(objs[..|objs| - 1], act, ox, oy, t)
      case Err(e) => Err(e)
      case Ok(es) =>
        match Spawn(objs[|objs| - 1], act, ox, oy, t)
        case Err(e) => Err(e)
        case Ok(None) => Ok(es)
        case Ok(Some(e)) => Ok(es + [e])
  }

  /** Sequencing of two passes: the first panic wins, otherwise the entities of
      the two parts follow each other. */
  function Then(ra: Result<seq<Entity>, SpawnError>, rb: Result<seq<Entity>, SpawnError>): Result<seq<Entity>, SpawnError>
  {
    if ra.Err? then ra else if rb.Err? then rb else Ok(ra.value + rb.value)
  }

  /** Materialising a concatenation of placement lists is materialising each
      part in turn: the output follows the declaration order. */
  lemma {:induction false} SpawnAllAppend(a: seq<Object>, b: seq<Object>, act: int, ox: int, oy: int, t: SpawnTables)
    ensures SpawnAll(a + b, act, ox, oy, t) == Then(SpawnAll(a, act, ox, oy, t), SpawnAll(b, act, ox, oy, t))
    decreases |b|
  {
    if b == [] {
      assert a + b == a;
      var ra := SpawnAll(a, act, ox, oy, t);
      assert ra.Ok? ==> ra.value + [] == ra.value;
    } else {
      var init, last := b[..|b| - 1], b[|b| - 1];
      var ab := a + b;
      assert ab[..|ab| - 1] == a + init;
      assert ab[|ab| - 1] == last;
      SpawnAllAppend(a, init, act, ox, oy, t);
      var ra, ri := SpawnAll(a, act, ox, oy, t), SpawnAll(init, act, ox, oy, t);
      var one := Spawn(last, act, ox, oy, t);
      if ra.Ok? && ri.Ok? && one.Ok? && one.value.Some? {
        assert SpawnAll(ab, act, ox, oy, t) == Ok(ra.value + ri.value + [one.value.value]);
        assert SpawnAll(b, act, ox, oy, t) == Ok(ri.value + [one.value.value]);
        assert ra.value + ri.value + [one.value.value] == ra.value + (ri.value + [one.value.value]);
      }
    }
  }

  /** A placement that contributes nothing (a lookup miss or an ignored kind)
      can be dropped without changing the outcome of the pass. */
  lemma SpawnAllSkipsMiss(a: seq<Object>, o: Object, b: seq<Object>, act: int, ox: int, oy: int, t: SpawnTables)
    requires Spawn(o, act, ox, oy, t) == Ok(None)
    ensures SpawnAll(a + [o] + b, act, ox, oy, t) == SpawnAll(a + b, act, ox, oy, t)
  {
    SpawnAllAppend(a + [o], b, act, ox, oy, t);
    SpawnAllAppend(a, [o], act, ox, oy, t);
    SpawnAllAppend(a, b, act, ox, oy, t);
    assert [o][..0] == [];
  }

  /** Every entity comes from one placement of the layout. */
  lemma {:induction false} SpawnAllOrigin(objs: seq<Object>, act: int, ox: int, oy: int, t: SpawnTables, k: int)
    requires SpawnAll(objs, act, ox, oy, t).Ok? && 0 <= k < |SpawnAll(objs, act, ox, oy, t).value|
    ensures exists i :: 0 <= i < |objs| && Spawn(objs[i], act, ox, oy, t) == Ok(Some(SpawnAll(objs, act, ox, oy, t).value[k]))
    decreases |objs|
  {
    var init := objs[..|objs| - 1];
    var es := SpawnAll(init, act, ox, oy, t).value;
    if k < |es| {
      SpawnAllOrigin(init, act, ox, oy, t, k);
      var i :| 0 <= i < |init| && Spawn(init[i], act, ox, oy, t) == Ok(Some(es[k]));
      assert objs[i] == init[i];
    } else {
      assert Spawn(objs[|objs| - 1], act, ox, oy, t) == Ok(Some(SpawnAll(objs, act, ox, oy, t).value[k]));
    }
  }

  /** One more placement: its contribution, if any, goes last. */
  lemma SpawnAllStep(objs: seq<Object>, i: nat, act: int, ox: int, oy: int, t: SpawnTables)
    requires i < |objs| && SpawnAll(objs[..i], act, ox, oy, t).Ok?
    ensures var es, one := SpawnAll(objs[..i], act, ox, oy, t).value, Spawn(objs[i], act, ox, oy, t);
            SpawnAll(objs[..i + 1], act, ox, oy, t) ==
              if one.Err? then Err(one.error)
              else if one.value.None? then Ok(es)
              else Ok(es + [one.value.value])
  {
    assert objs[..i + 1][..i] == objs[..i];
    assert objs[..i + 1][i] == objs[i];
  }

  /** A pass that succeeds has every placement succeed. */
  lemma {:induction false} SpawnAllOkEach(objs: seq<Object>, act: int, ox: int, oy: int, t: SpawnTables)
    requires SpawnAll(objs, act, ox, oy, t).Ok?
    ensures forall j :: 0 <= j < |objs| ==> Spawn(objs[j], act, ox, oy, t).Ok?
    decreases |objs|
  {
    if objs != [] {
      var init := objs[..|objs| - 1];
      SpawnAllOkEach(init, act, ox, oy, t);
      assert forall j :: 0 <= j < |init| ==> objs[j] == init[j];
    }
  }

  /** A failed pass reports the failure of the first placement that fails;
      every earlier placement succeeds. */
  lemma {:induction false} SpawnAllFirstFailure(objs: seq<Object>, act: int, ox: int, oy: int, t: SpawnTables)
    requires SpawnAll(objs, act, ox, oy, t).Err?
    ensures exists i :: && 0 <= i < |objs| && Spawn(objs[i], act, ox, oy, t).Err?
                        && SpawnAll(objs, act, ox, oy, t).error == Spawn(objs[i], act, ox, oy, t).error
                        && forall j :: 0 <= j < i ==> Spawn(objs[j], act, ox, oy, t).Ok?
    decreases |objs|
  {
    var init := objs[..|objs| - 1];
    if SpawnAll(init, act, ox, oy, t).Err? {
      SpawnAllFirstFailure(init, act, ox, oy, t);
      var i :| && 0 <= i < |init| && Spawn(init[i], act, ox, oy, t).Err?
               && SpawnAll(init, act, ox, oy, t).error == Spawn(init[i], act, ox, oy, t).error
               && forall j :: 0 <= j < i ==> Spawn(init[j], act, ox, oy, t).Ok?;
      assert forall j :: 0 <= j <= i ==> objs[j] == init[j];
    } else {
      SpawnAllOkEach(init, act, ox, oy, t);
      assert forall j :: 0 <= j < |init| ==> objs[j] == init[j];
      assert Spawn(objs[|objs| - 1], act, ox, oy, t).Err?;
    }
  }

  /** A panic in a prefix of the placements is the outcome of the whole pass. */
  lemma SpawnAllErrorSticks(objs: seq<Object>, k: nat, act: int, ox: int, oy: int, t: SpawnTables)
    requires k <= |objs| && SpawnAll(objs[..k], act, ox, oy, t).Err?
    ensures SpawnAll(objs, act, ox, oy, t) == SpawnAll(objs[..k], act, ox, oy, t)
  {
    SpawnAllAppend(objs[..k], objs[k..], act, ox, oy, t);
    assert objs[..k] + objs[k..] == objs;
  }

  // ---------------------------------------------------------------------------
  // The stamp.
  // ---------------------------------------------------------------------------

  class Stamp {
    const regionPath: string
    const levelType: LevelTypeRecord
    const levelPreset: LevelPresetRecord
    const tiles: seq<D2dt1.Tile>
    const ds1: DS1

    constructor (regionPath: string, levelType: LevelTypeRecord, levelPreset: LevelPresetRecord,
                 tiles: seq<D2dt1.Tile>, ds1: DS1)
      ensures this.regionPath == regionPath && this.levelType == levelType
      ensures this.levelPreset == levelPreset && this.tiles == tiles && this.ds1 == ds1
    {
      this.regionPath := regionPath;
      this.levelType := levelType;
      this.levelPreset := levelPreset;
      this.tiles := tiles;
      this.ds1 := ds1;
    }

    /** The size declared in the layout's header, which need not match the grid.
        What it reports for a loaded stamp is stated by LoadStamp. */
    function Size(): D2common.Size
    {
      D2common.Size(ds1.width, ds1.height)
    }

    /** The cell at column x of row y; the source does not check the bounds.
        What it returns for a loaded stamp is stated by TileHasRegion. */
    function Tile(x: int, y: int): TileRecord
      requires 0 <= y < ds1.tiles.Length && 0 <= x < ds1.tiles[y].Length
      reads ds1.tiles, ds1.tiles[y]
    {
      ds1.tiles[y][x]
    }

    /** The first tile of the collection with the given key, scanning in order. */
    method TileData(style: int, sequence: int, tileType: int) returns (r: Option<D2dt1.Tile>)
      ensures r == FirstMatch(tiles, style, sequence, tileType)
    {
      for i := 0 to |tiles|
        invariant forall j :: 0 <= j < i ==> !Matches(tiles[j], style, sequence, tileType)
      {
        if Matches(tiles[i], style, sequence, tileType) {
          return Some(tiles[i]);
        }
      }
      return None;
    }

    /** The entities of the layout for a stamp placed at offset (ox, oy). */
    method Entities(ox: int, oy: int, t: SpawnTables) returns (r: Result<seq<Entity>, SpawnError>)
      ensures r == SpawnAll(ds1.objects, ds1.act, ox, oy, t)
    {
      var entities: seq<Entity> := [];
      var objs, act := ds1.objects, ds1.act;
      for i := 0 to |objs|
        invariant SpawnAll(objs[..i], act, ox, oy, t) == Ok(entities)
      {
        var o := objs[i];
        ghost var one := Spawn(o, act, ox, oy, t);
        SpawnAllStep(objs, i, act, ox, oy, t);
        if o.objectType == ObjectTypeCharacter {
          if act !in t.monPresets || !(0 <= o.id < |t.monPresets[act]|) {
            SpawnAllErrorSticks(objs, i + 1, act, ox, oy, t);
            return Err(MonPresetOutOfRange(act, o.id));
          }
          var monstat := t.monPresets[act][o.id];
          if monstat in t.monStats {
            var npc := CreateNPC(ox * TilesPerStampUnit + o.x, oy * TilesPerStampUnit + o.y, t.monStats[monstat], 0);
            var paths := ConvertPaths(ox, oy, o.paths);
            npc := SetPaths(npc, paths);
            assert one == Ok(Some(npc));
            entities := entities + [npc];
          } else {
            assert one == Ok(None);
          }
        }
        if o.objectType == ObjectTypeItem {
          var key := (act, o.objectType, o.id);
          if key !in t.objectLookup {
            assert one == Ok(None);
            continue;
          }
          var objectId := t.objectLookup[key];
          if objectId in t.objects {
            var created := CreateObject(ox * TilesPerStampUnit + o.x, oy * TilesPerStampUnit + o.y,
                                        t.objects[objectId], t.canCreate);
            if created.Err? {
              assert one == Err(ObjectCreationFailed(created.error.objectId));
              SpawnAllErrorSticks(objs, i + 1, act, ox, oy, t);
              return Err(ObjectCreationFailed(created.error.objectId));
            }
            assert one == Ok(Some(created.value));
            entities := entities + [created.value];
          } else {
            assert one == Ok(None);
          }
        }
        if o.objectType != ObjectTypeCharacter && o.objectType != ObjectTypeItem {
          assert one == Ok(None);
        }
      }
      assert objs[..|objs|] == objs;
      return Ok(entities);
    }
  }

  // ---------------------------------------------------------------------------
  // Loading.
  // ---------------------------------------------------------------------------

  /** LoadStamp: resolves the level type and preset, collects the tiles of the
      level type's files, chooses one of the preset's layout files, lays the
      layout out in fresh memory and tags every cell with `levelType`. */
  method LoadStamp(levelType: int, levelPreset: int, fileIndex: int, draw: real,
                   tables: LevelTables, archive: Archive) returns (r: Result<Stamp, LoadError>)
    requires 0.0 <= draw < 1.0
    ensures var lt := LevelTypeOf(tables, levelType);
            TileCollection(lt.files, archive.dt1).Err? ==> r == Err(TileCollection(lt.files, archive.dt1).error)
    ensures var lt, lp := LevelTypeOf(tables, levelType), LevelPresetOf(tables, levelPreset);
            r == Err(NoLevelFiles) <==> TileCollection(lt.files, archive.dt1).Ok? && Kept(lp.files) == []
    ensures var lp := LevelPresetOf(tables, levelPreset);
            r.Err? && r.error.AssetNotFound? && TileCollection(LevelTypeOf(tables, levelType).files, archive.dt1).Ok? ==>
              && SelectLevelFile(Kept(lp.files), fileIndex, draw).Ok?
              && r.error.path == TilesDir + SelectLevelFile(Kept(lp.files), fileIndex, draw).value
              && r.error.path !in archive.ds1
    ensures r.Ok? ==>
              var s := r.value;
              var lt, lp := LevelTypeOf(tables, levelType), LevelPresetOf(tables, levelPreset);
              && fresh(s) && fresh(s.ds1) && fresh(s.ds1.tiles) && fresh(s.ds1.Rows())
              && s.levelType == lt && s.levelPreset == lp
              && TileCollection(lt.files, archive.dt1) == Ok(s.tiles)
              && SelectLevelFile(Kept(lp.files), fileIndex, draw) == Ok(s.regionPath)
              && TilesDir + s.regionPath in archive.ds1
              && var layout := archive.ds1[TilesDir + s.regionPath];
                 && s.Size() == D2common.Size(layout.width, layout.height)
                 && s.ds1.act == layout.act && s.ds1.objects == layout.objects
                 && s.ds1.Valid() && s.ds1.HoldsGrid(WithRegion(layout.tiles, levelType))
  {
    var lt := LevelTypeOf(tables, levelType);
    var lp := LevelPresetOf(tables, levelPreset);
    var tiles := CollectTiles(lt.files, archive.dt1);
    if tiles.Err? {
      return Err(tiles.error);
    }
    var candidates := PickableFiles(lp.files);
    var picked := SelectLevelFile(candidates, fileIndex, draw);
    if picked.Err? {
      return Err(picked.error);
    }
    var path := TilesDir + picked.value;
    if path !in archive.ds1 {
      return Err(AssetNotFound(path));
    }
    var layout := archive.ds1[path];
    var ds1 := new DS1(layout);
    StampRegion(ds1, levelType);
    ghost var g := WithRegion(layout.tiles, levelType);
    forall y | 0 <= y < |g| ensures ds1.tiles[y][..] == g[y] {
      assert |ds1.tiles[y][..]| == |g[y]|;
      forall x | 0 <= x < |g[y]| ensures ds1.tiles[y][x] == g[y][x] {
        assert ds1.tiles[y][x] == layout.tiles[y][x].(regionType := levelType);
      }
    }
    var stamp := new Stamp(picked.value, lt, lp, tiles.value, ds1);
    return Ok(stamp);
  }

  /** Every cell a loaded stamp hands out carries the requested region tag. */
  lemma TileHasRegion(s: Stamp, layout: Decoded, levelType: int, x: int, y: int)
    requires s.ds1.HoldsGrid(WithRegion(layout.tiles, levelType))
    requires 0 <= y < s.ds1.tiles.Length && 0 <= x < s.ds1.tiles[y].Length
    ensures s.Tile(x, y).regionType == levelType
    ensures s.Tile(x, y).layers == layout.tiles[y][x].layers
  {
    assert s.ds1.tiles[y][..][x] == WithRegion(layout.tiles, levelType)[y][x];
  }
}
