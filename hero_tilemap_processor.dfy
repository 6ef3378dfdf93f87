/** HeroTilemapProcessor: turns an imported Tiled map into a HeroTilemap.
    Each tileset image is sliced into source rectangles, appended to one
    global tile table; each layer cell's 1-based global ID is resolved
    against that table; the hero and the enemies come from the "sprites"
    object group. Building a texture is a collaborator: it yields the size of
    the built image, or nothing when the build throws. */
module HeroTilemapProcessor {
  import opened NetRuntime
  import opened TileCells
  import opened TiledImporter

  // ---------------------------------------------------------------------
  // Content types

  datatype Rectangle = Rectangle(x: int, y: int, width: int, height: int)

  /** An `ExternalReference<Texture2DContent>`: the asset built from a file. */
  datatype ExternalReference = ExternalReference(filename: Option<string>)

  /** The width and height of a built texture's first mipmap. */
  datatype ImageSize = ImageSize(width: int, height: int)

  /** The texture build of the asset pipeline: the built image's size, or None when the build throws. */
  type TextureBuilder = Option<string> -> Option<ImageSize>

  /** A loaded `Texture2DContent`. */
  datatype Texture2D = Texture2D(source: ExternalReference, size: ImageSize)

  /** One slot of the global tile table. */
  datatype HeroTileInfo = HeroTileInfo(texture: ExternalReference, sourceRect: Rectangle, solid: bool, liquid: bool)

  /** A tile of a processed layer: the placeholder `HeroBaseTileContent` or a `HeroTileContent`. */
  datatype HeroTile =
    | BaseTile
    | TexturedTile(texture: ExternalReference, sourceRect: Rectangle, worldRect: Rectangle,
                   spriteEffects: SpriteEffects, solid: bool, liquid: bool)

  /** `HeroTilemapLayerContent`; `Visible` keeps its default, true. */
  datatype HeroTilemapLayer = HeroTilemapLayer(tiles: seq<HeroTile>, opacity: real, visible: bool)

  datatype Vector2 = Vector2(x: real, y: real)

  datatype HeroContent = HeroContent(texture: Texture2D, position: Vector2)

  datatype EnemyContent = EnemyContent(health: int, position: Vector2)

  /** A Tiled object of an object group, with its position and its properties. */
  datatype TiledObject = TiledObject(name: Option<string>, x: real, y: real, properties: map<string, string>)

  datatype ObjectGroup = ObjectGroup(name: Option<string>, objects: seq<TiledObject>)

  /** The processor's input map: tile size, tilesets, tile layers and object groups. */
  datatype TiledMap = TiledMap(
    tileWidth: int,
    tileHeight: int,
    tilesets: seq<TilesetContent>,
    tileLayers: seq<TiledLayer>,
    objectGroups: seq<ObjectGroup>)

  datatype HeroTilemapContent = HeroTilemapContent(layers: seq<HeroTilemapLayer>, hero: HeroContent, enemies: seq<EnemyContent>)

  function Clamp(n: int): nat { if n < 0 then 0 else n }

  // ---------------------------------------------------------------------
  // ProcessTilesets: slicing the tileset images

  /** The special property `key` of tile `tileIndex`: false when the tile has
      no property entry, "false" when the key is absent, and false unless the
      value parses as true. */
  function TileFlag(tileProperties: map<int, map<string, string>>, tileIndex: int, key: string): (flag: bool)
    ensures flag <==> tileIndex in tileProperties && key in tileProperties[tileIndex]
                      && TryParseBool(tileProperties[tileIndex][key]) == Some(true)
  {
    if tileIndex in tileProperties then
      TryParseBoolFalse();
      BoolOrFalse(GetValueOrDefault(tileProperties[tileIndex], key, "false"))
    else false
  }

  /** What every slot of one tileset shares: its texture, the map's tile size,
      its margin and spacing, and its solid and liquid flags. */
  datatype SlotTemplate = SlotTemplate(
    texture: ExternalReference,
    tileWidth: int,
    tileHeight: int,
    margin: int,
    spacing: int,
    solid: bool,
    liquid: bool)

  /** The source rectangle of grid position (x, y): tiles are `tileWidth` by
      `tileHeight`, `spacing` apart, inside a border of `margin`. */
  function SourceRect(x: int, y: int, tileWidth: int, tileHeight: int, margin: int, spacing: int): Rectangle
  {
    Rectangle(x * (tileWidth + spacing) + margin, y * (tileHeight + spacing) + margin, tileWidth, tileHeight)
  }

  /** The slot at grid position (x, y) of a tileset image. */
  function Slot(t: SlotTemplate, x: int, y: int): HeroTileInfo
  {
    HeroTileInfo(t.texture, SourceRect(x, y, t.tileWidth, t.tileHeight, t.margin, t.spacing), t.solid, t.liquid)
  }

  /** Row y of the grid: the slots (0, y) .. (columns - 1, y). */
  function SlotRow(t: SlotTemplate, y: int, columns: nat): (row: seq<HeroTileInfo>)
    ensures |row| == columns
    ensures forall x :: 0 <= x < columns ==> row[x] == Slot(t, x, y)
  {
    seq(columns, x requires 0 <= x < columns => Slot(t, x, y))
  }

  /** Rows 0 .. rows - 1 of the grid, one after the other. */
  function SlotGrid(t: SlotTemplate, columns: nat, rows: nat): seq<HeroTileInfo>
  {
    if rows == 0 then [] else SlotGrid(t, columns, rows - 1) + SlotRow(t, rows - 1, columns)
  }

  /** The template of a tileset's slots: the tile properties are looked up for
      tile index 1 only, and the solid flag under the key "soild". */
  function TemplateOf(tileWidth: int, tileHeight: int, tileset: TilesetContent): SlotTemplate
  {
    SlotTemplate(ExternalReference(tileset.imageFilename), tileWidth, tileHeight, tileset.margin, tileset.spacing,
                 TileFlag(tileset.tileProperties, 1, "soild"), TileFlag(tileset.tileProperties, 1, "liquid"))
  }

  /** The number of whole tiles across (or down) an image, by truncating division. */
  function TileCount(extent: int, margin: int, tileSize: int, spacing: int): (n: int)
    requires tileSize + spacing != 0
    ensures tileSize + spacing > 0 && extent - 2 * margin >= 0 ==>
              0 <= n && n * (tileSize + spacing) <= extent - 2 * margin < (n + 1) * (tileSize + spacing)
  {
    Quot(extent - 2 * margin, tileSize + spacing)
  }

  /** The slots of one tileset whose image has the given size; a zero step divides by zero. */
  function TilesetSlots(tileWidth: int, tileHeight: int, tileset: TilesetContent, image: ImageSize): Result<seq<HeroTileInfo>>
  {
    if tileWidth + tileset.spacing == 0 || tileHeight + tileset.spacing == 0 then Failure(DivideByZero)
    else
      var columns := TileCount(image.width, tileset.margin, tileWidth, tileset.spacing);
      var rows := TileCount(image.height, tileset.margin, tileHeight, tileset.spacing);
      Success(SlotGrid(TemplateOf(tileWidth, tileHeight, tileset), Clamp(columns), Clamp(rows)))
  }

  /** The slots of one tileset, after building its image. */
  function TilesetAtlas(tileWidth: int, tileHeight: int, tileset: TilesetContent, build: TextureBuilder): Result<seq<HeroTileInfo>>
  {
    var image := build(tileset.imageFilename);
    if image.None? then Failure(AssetBuild) else TilesetSlots(tileWidth, tileHeight, tileset, image.value)
  }

  /** The global tile table: the slots of each tileset in list order (the specification of ProcessTilesets). */
  function AtlasTable(tileWidth: int, tileHeight: int, tilesets: seq<TilesetContent>, build: TextureBuilder): Result<seq<HeroTileInfo>>
    decreases |tilesets|
  {
    if tilesets == [] then Success([])
    else
      var earlier :- AtlasTable(tileWidth, tileHeight, tilesets[..|tilesets| - 1], build);
      var slots :- TilesetAtlas(tileWidth, tileHeight, tilesets[|tilesets| - 1], build);
      Success(earlier + slots)
  }

  /** HeroTilemapProcessor.ProcessTilesets: for each tileset, build its image,
      count its columns and rows, and append its slots row by row. */
  method ProcessTilesets(tileWidth: int, tileHeight: int, tilesets: seq<TilesetContent>, build: TextureBuilder)
    returns (r: Result<seq<HeroTileInfo>>)
    ensures r == AtlasTable(tileWidth, tileHeight, tilesets, build)
  {
    var processedTiles: seq<HeroTileInfo> := [];
    var k := 0;
    while k < |tilesets|
      invariant 0 <= k <= |tilesets|
      invariant AtlasTable(tileWidth, tileHeight, tilesets[..k], build) == Success(processedTiles)
    {
      AtlasStep(tileWidth, tileHeight, tilesets, build, k, processedTiles);
      var next := ProcessTileset(processedTiles, tileWidth, tileHeight, tilesets[k], build);
      if next.Failure? {
        AtlasFailurePersists(tileWidth, tileHeight, tilesets, build, k + 1);
        return Failure(next.error);
      }
      processedTiles := next.value;
      k := k + 1;
    }
    assert tilesets[..k] == tilesets;
    return Success(processedTiles);
  }

  /** The body of ProcessTilesets' loop for one tileset: build its image,
      count its columns and rows, and append its slots. */
  method ProcessTileset(processedTiles: seq<HeroTileInfo>, tileWidth: int, tileHeight: int, tileset: TilesetContent,
                        build: TextureBuilder)
    returns (r: Result<seq<HeroTileInfo>>)
    ensures TilesetAtlas(tileWidth, tileHeight, tileset, build).Failure? ==>
      r == Failure(TilesetAtlas(tileWidth, tileHeight, tileset, build).error)
    ensures TilesetAtlas(tileWidth, tileHeight, tileset, build).Success? ==>
      r == Success(processedTiles + TilesetAtlas(tileWidth, tileHeight, tileset, build).value)
  {
    var texture := ExternalReference(tileset.imageFilename);
    var image := build(tileset.imageFilename);
    if image.None? {
      return Failure(AssetBuild);
    }
    var textureWidth := image.value.width;
    var textureHeight := image.value.height;
    if tileWidth + tileset.spacing == 0 || tileHeight + tileset.spacing == 0 {
      return Failure(DivideByZero);
    }
    var tilesetColumns := Quot(textureWidth - 2 * tileset.margin, tileWidth + tileset.spacing);
    var tilesetRows := Quot(textureHeight - 2 * tileset.margin, tileHeight + tileset.spacing);
    assert TilesetAtlas(tileWidth, tileHeight, tileset, build)
           == Success(SlotGrid(TemplateOf(tileWidth, tileHeight, tileset), Clamp(tilesetColumns), Clamp(tilesetRows)));
    var tiles := AppendSlots(processedTiles, texture, tileWidth, tileHeight, tileset, tilesetColumns, tilesetRows);
    return Success(tiles);
  }

  /** One more tileset appends its slots to the table of the tilesets before it. */
  lemma AtlasStep(tileWidth: int, tileHeight: int, tilesets: seq<TilesetContent>, build: TextureBuilder, k: nat,
                  earlier: seq<HeroTileInfo>)
    requires k < |tilesets|
    requires AtlasTable(tileWidth, tileHeight, tilesets[..k], build) == Success(earlier)
    ensures TilesetAtlas(tileWidth, tileHeight, tilesets[k], build).Failure? ==>
      AtlasTable(tileWidth, tileHeight, tilesets[..k + 1], build) == Failure(TilesetAtlas(tileWidth, tileHeight, tilesets[k], build).error)
    ensures TilesetAtlas(tileWidth, tileHeight, tilesets[k], build).Success? ==>
      AtlasTable(tileWidth, tileHeight, tilesets[..k + 1], build) == Success(earlier + TilesetAtlas(tileWidth, tileHeight, tilesets[k], build).value)
  {
    assert tilesets[..k + 1][..k] == tilesets[..k] && tilesets[..k + 1][k] == tilesets[k];
  }

  /** The nested loops of ProcessTilesets for one tileset: append the slots of
      its grid, row by row, each with the flags of tile index 1. */
  method AppendSlots(processedTiles: seq<HeroTileInfo>, texture: ExternalReference, tileWidth: int, tileHeight: int,
                     tileset: TilesetContent, tilesetColumns: int, tilesetRows: int)
    returns (tiles: seq<HeroTileInfo>)
    requires texture == ExternalReference(tileset.imageFilename)
    ensures tiles == processedTiles + SlotGrid(TemplateOf(tileWidth, tileHeight, tileset), Clamp(tilesetColumns), Clamp(tilesetRows))
  {
    tiles := processedTiles;
    var currentTileIndex := 1;
    ghost var t := TemplateOf(tileWidth, tileHeight, tileset);
    var y := 0;
    while y < tilesetRows
      invariant 0 <= y <= Clamp(tilesetRows)
      invariant tiles == processedTiles + SlotGrid(t, Clamp(tilesetColumns), y)
    {
      var x := 0;
      while x < tilesetColumns
        invariant 0 <= x <= Clamp(tilesetColumns)
        invariant tiles == processedTiles + SlotGrid(t, Clamp(tilesetColumns), y) + SlotRow(t, y, x)
      {
        var tileProperties: Option<map<string, string>> :=
          if currentTileIndex in tileset.tileProperties then Some(tileset.tileProperties[currentTileIndex]) else None;
        var solid := false;
        var liquid := false;
        if tileProperties.Some? {
          solid := BoolOrFalse(GetValueOrDefault(tileProperties.value, "soild", "false"));
          liquid := BoolOrFalse(GetValueOrDefault(tileProperties.value, "liquid", "false"));
        }
        var info := HeroTileInfo(texture,
                                 Rectangle(x * (tileWidth + tileset.spacing) + tileset.margin,
                                           y * (tileHeight + tileset.spacing) + tileset.margin,
                                           tileWidth, tileHeight),
                                 solid, liquid);
        assert info == Slot(t, x, y);
        assert SlotRow(t, y, x + 1) == SlotRow(t, y, x) + [info];
        tiles := tiles + [info];
        x := x + 1;
      }
      assert SlotGrid(t, Clamp(tilesetColumns), y + 1) == SlotGrid(t, Clamp(tilesetColumns), y) + SlotRow(t, y, x);
      y := y + 1;
    }
  }

  /** Once a prefix of the tilesets fails, the whole table fails with the same error. */
  lemma {:induction false} AtlasFailurePersists(tileWidth: int, tileHeight: int, tilesets: seq<TilesetContent>,
                                                build: TextureBuilder, k: nat)
    requires k <= |tilesets|
    requires AtlasTable(tileWidth, tileHeight, tilesets[..k], build).Failure?
    ensures AtlasTable(tileWidth, tileHeight, tilesets, build) == AtlasTable(tileWidth, tileHeight, tilesets[..k], build)
    decreases |tilesets| - k
  {
    if k < |tilesets| {
      var longer := tilesets[..k + 1];
      assert longer[..|longer| - 1] == tilesets[..k];
      AtlasFailurePersists(tileWidth, tileHeight, tilesets, build, k + 1);
    } else {
      assert tilesets[..k] == tilesets;
    }
  }

  // ---------------------------------------------------------------------
  // Properties of the tile table

  /** Multiplication by a non-negative number keeps order. */
  lemma MulMono(a: int, b: int, c: int)
    requires a <= b && 0 <= c
    ensures a * c <= b * c
  {
    assert b * c - a * c == (b - a) * c;
  }

  /** The grid has rows * columns slots. */
  lemma {:induction false} SlotGridLength(t: SlotTemplate, columns: nat, rows: nat)
    ensures |SlotGrid(t, columns, rows)| == rows * columns
  {
    if rows > 0 {
      SlotGridLength(t, columns, rows - 1);
      assert (rows - 1) * columns + columns == rows * columns;
    }
  }

  /** The grid is row-major: slot (x, y) sits at index y * columns + x. */
  lemma {:induction false} SlotGridAt(t: SlotTemplate, columns: nat, rows: nat, x: nat, y: nat)
    requires x < columns && y < rows
    ensures y * columns + x < |SlotGrid(t, columns, rows)|
    ensures SlotGrid(t, columns, rows)[y * columns + x] == Slot(t, x, y)
  {
    SlotGridLength(t, columns, rows - 1);
    MulMono(y + 1, rows, columns);
    if y < rows - 1 {
      MulMono(y + 1, rows - 1, columns);
      SlotGridAt(t, columns, rows - 1, x, y);
    } else {
      assert y * columns == (rows - 1) * columns;
    }
  }

  /** A tileset fails only on a zero step (the tile size plus the spacing), with DivideByZero. */
  lemma TilesetSlotsFailure(tileWidth: int, tileHeight: int, tileset: TilesetContent, image: ImageSize)
    ensures var slots := TilesetSlots(tileWidth, tileHeight, tileset, image);
      (slots.Failure? <==> tileWidth + tileset.spacing == 0 || tileHeight + tileset.spacing == 0)
      && (slots.Failure? ==> slots.error == DivideByZero)
  {
  }

  /** A tileset yields exactly rows * columns slots when both counts are
      positive and none when either is not; the counts are taken with the
      map's tile size and truncating division. */
  lemma TilesetSlotCount(tileWidth: int, tileHeight: int, tileset: TilesetContent, image: ImageSize)
    requires tileWidth + tileset.spacing != 0 && tileHeight + tileset.spacing != 0
    ensures var columns := TileCount(image.width, tileset.margin, tileWidth, tileset.spacing);
      var rows := TileCount(image.height, tileset.margin, tileHeight, tileset.spacing);
      |TilesetSlots(tileWidth, tileHeight, tileset, image).value| == if columns > 0 && rows > 0 then rows * columns else 0
  {
    var columns := TileCount(image.width, tileset.margin, tileWidth, tileset.spacing);
    var rows := TileCount(image.height, tileset.margin, tileHeight, tileset.spacing);
    SlotGridLength(TemplateOf(tileWidth, tileHeight, tileset), Clamp(columns), Clamp(rows));
  }

  /** Slot (x, y) of a tileset sits at index y * columns + x and has the source
      rectangle (x*(tw+s)+m, y*(th+s)+m, tw, th), the tileset's texture and the
      solid and liquid flags of tile index 1 (solid under the key "soild"). */
  lemma TilesetSlotAt(tileWidth: int, tileHeight: int, tileset: TilesetContent, image: ImageSize, x: int, y: int)
    requires tileWidth + tileset.spacing != 0 && tileHeight + tileset.spacing != 0
    requires 0 <= x < TileCount(image.width, tileset.margin, tileWidth, tileset.spacing)
    requires 0 <= y < TileCount(image.height, tileset.margin, tileHeight, tileset.spacing)
    ensures var columns := TileCount(image.width, tileset.margin, tileWidth, tileset.spacing);
      var slots := TilesetSlots(tileWidth, tileHeight, tileset, image).value;
      && y * columns + x < |slots|
      && slots[y * columns + x] ==
           HeroTileInfo(ExternalReference(tileset.imageFilename),
                        SourceRect(x, y, tileWidth, tileHeight, tileset.margin, tileset.spacing),
                        TileFlag(tileset.tileProperties, 1, "soild"), TileFlag(tileset.tileProperties, 1, "liquid"))
  {
    var columns := TileCount(image.width, tileset.margin, tileWidth, tileset.spacing);
    var rows := TileCount(image.height, tileset.margin, tileHeight, tileset.spacing);
    SlotGridAt(TemplateOf(tileWidth, tileHeight, tileset), Clamp(columns), Clamp(rows), x, y);
  }

  /** Every slot of a tileset has the same texture and the same solid and
      liquid flags, because the property lookup index never leaves 1. */
  lemma TilesetSlotsUniform(tileWidth: int, tileHeight: int, tileset: TilesetContent, image: ImageSize)
    requires TilesetSlots(tileWidth, tileHeight, tileset, image).Success?
    ensures var slots := TilesetSlots(tileWidth, tileHeight, tileset, image).value;
      forall i :: 0 <= i < |slots| ==>
        && slots[i].texture == ExternalReference(tileset.imageFilename)
        && slots[i].solid == TileFlag(tileset.tileProperties, 1, "soild")
        && slots[i].liquid == TileFlag(tileset.tileProperties, 1, "liquid")
  {
    var columns := TileCount(image.width, tileset.margin, tileWidth, tileset.spacing);
    var rows := TileCount(image.height, tileset.margin, tileHeight, tileset.spacing);
    SlotGridUniform(TemplateOf(tileWidth, tileHeight, tileset), Clamp(columns), Clamp(rows));
  }

  lemma {:induction false} SlotGridUniform(t: SlotTemplate, columns: nat, rows: nat)
    ensures forall i :: 0 <= i < |SlotGrid(t, columns, rows)| ==>
      var info := SlotGrid(t, columns, rows)[i];
      info.texture == t.texture && info.solid == t.solid && info.liquid == t.liquid
  {
    if rows > 0 {
      SlotGridUniform(t, columns, rows - 1);
    }
  }

  /** The table exists iff every tileset's slots do. */
  lemma {:induction false} AtlasTableSucceeds(tileWidth: int, tileHeight: int, tilesets: seq<TilesetContent>, build: TextureBuilder)
    ensures AtlasTable(tileWidth, tileHeight, tilesets, build).Success? <==>
      forall k :: 0 <= k < |tilesets| ==> TilesetAtlas(tileWidth, tileHeight, tilesets[k], build).Success?
    decreases |tilesets|
  {
    if tilesets != [] {
      var front := tilesets[..|tilesets| - 1];
      AtlasTableSucceeds(tileWidth, tileHeight, front, build);
      assert forall k :: 0 <= k < |front| ==> front[k] == tilesets[k];
    }
  }

  /** A table that exists is the table of all but the last tileset followed by the last one's slots. */
  lemma AtlasUnfold(tileWidth: int, tileHeight: int, tilesets: seq<TilesetContent>, build: TextureBuilder)
    requires tilesets != [] && AtlasTable(tileWidth, tileHeight, tilesets, build).Success?
    ensures var n := |tilesets| - 1;
      && AtlasTable(tileWidth, tileHeight, tilesets[..n], build).Success?
      && TilesetAtlas(tileWidth, tileHeight, tilesets[n], build).Success?
      && AtlasTable(tileWidth, tileHeight, tilesets, build).value
         == AtlasTable(tileWidth, tileHeight, tilesets[..n], build).value + TilesetAtlas(tileWidth, tileHeight, tilesets[n], build).value
  {
  }

  /** The table is the tilesets' slots concatenated in list order: slot j of
      tileset k sits at global index (slots of the tilesets before k) + j. */
  lemma AtlasOffset(tileWidth: int, tileHeight: int, tilesets: seq<TilesetContent>, build: TextureBuilder,
                    k: nat, j: nat)
    requires AtlasTable(tileWidth, tileHeight, tilesets, build).Success?
    requires k < |tilesets|
    requires TilesetAtlas(tileWidth, tileHeight, tilesets[k], build).Success?
    requires j < |TilesetAtlas(tileWidth, tileHeight, tilesets[k], build).value|
    ensures AtlasTable(tileWidth, tileHeight, tilesets[..k], build).Success?
    ensures var offset := |AtlasTable(tileWidth, tileHeight, tilesets[..k], build).value|;
      && offset + j < |AtlasTable(tileWidth, tileHeight, tilesets, build).value|
      && AtlasTable(tileWidth, tileHeight, tilesets, build).value[offset + j]
           == TilesetAtlas(tileWidth, tileHeight, tilesets[k], build).value[j]
  {
    var upTo := tilesets[..k + 1];
    AtlasPrefix(tileWidth, tileHeight, tilesets, build, k + 1);
    assert upTo[..k] == tilesets[..k] && upTo[k] == tilesets[k];
    AtlasUnfold(tileWidth, tileHeight, upTo, build);
  }

  /** The table of the first k tilesets is a prefix of the whole table. */
  lemma {:induction false} AtlasPrefix(tileWidth: int, tileHeight: int, tilesets: seq<TilesetContent>, build: TextureBuilder,
                                       k: nat)
    requires AtlasTable(tileWidth, tileHeight, tilesets, build).Success?
    requires k <= |tilesets|
    ensures AtlasTable(tileWidth, tileHeight, tilesets[..k], build).Success?
    ensures AtlasTable(tileWidth, tileHeight, tilesets[..k], build).value <= AtlasTable(tileWidth, tileHeight, tilesets, build).value
    decreases |tilesets|
  {
    if k == |tilesets| {
      assert tilesets[..k] == tilesets;
    } else {
      var front := tilesets[..|tilesets| - 1];
      AtlasUnfold(tileWidth, tileHeight, tilesets, build);
      AtlasPrefix(tileWidth, tileHeight, front, build, k);
      assert front[..k] == tilesets[..k];
      var part := AtlasTable(tileWidth, tileHeight, tilesets[..k], build).value;
      var earlier := AtlasTable(tileWidth, tileHeight, front, build).value;
      var whole := AtlasTable(tileWidth, tileHeight, tilesets, build).value;
      assert part <= earlier && earlier <= whole;
      assert whole[..|part|] == earlier[..|part|] == part;
    }
  }

  /** A 256x256 image cut into 32x32 tiles with no margin and no spacing has
      64 slots: slot 0 at (0, 0) and slot 9, the second of row 1, at (32, 32). */
  lemma ExampleTileset(tileset: TilesetContent, build: TextureBuilder)
    requires tileset.margin == 0 && tileset.spacing == 0
    requires build(tileset.imageFilename) == Some(ImageSize(256, 256))
    ensures TilesetAtlas(32, 32, tileset, build).Success?
    ensures |TilesetAtlas(32, 32, tileset, build).value| == 64
    ensures TilesetAtlas(32, 32, tileset, build).value[0].sourceRect == Rectangle(0, 0, 32, 32)
    ensures TilesetAtlas(32, 32, tileset, build).value[9].sourceRect == Rectangle(32, 32, 32, 32)
  {
    var image := ImageSize(256, 256);
    assert TileCount(256, 0, 32, 0) == 8;
    TilesetSlotCount(32, 32, tileset, image);
    TilesetSlotAt(32, 32, tileset, image, 0, 0);
    TilesetSlotAt(32, 32, tileset, image, 1, 1);
    assert 1 * 8 + 1 == 9;
  }

  // ---------------------------------------------------------------------
  // ProcessLayers: resolving cells against the tile table

  /** The world rectangle of cell (x, y). */
  function WorldRect(x: int, y: int, tileWidth: int, tileHeight: int): Rectangle
  {
    Rectangle(x * tileWidth, y * tileHeight, tileWidth, tileHeight)
  }

  /** The tile of cell (x, y), read from `TileIndices[y * Width + x]`. ID 0 is
      the placeholder; ID g is slot g - 1 of the table, whose effect is read
      from `SpriteEffects[g - 1]`. The three lookups fail as the array and
      list indexers do. */
  function ResolveCell(layer: TiledLayer, tileInfoList: seq<HeroTileInfo>, tileWidth: int, tileHeight: int,
                       x: int, y: int): Result<HeroTile>
  {
    var index := y * layer.width + x;
    if !(0 <= index < |layer.tileIndices|) then Failure(IndexOutOfRange)
    else
      var tileIndex := layer.tileIndices[index] - 1;
      if tileIndex == -1 then Success(BaseTile)
      else if !(0 <= tileIndex < |tileInfoList|) then Failure(ArgumentOutOfRange)
      else if tileIndex >= |layer.spriteEffects| then Failure(IndexOutOfRange)
      else
        var info := tileInfoList[tileIndex];
        Success(TexturedTile(info.texture, info.sourceRect, WorldRect(x, y, tileWidth, tileHeight),
                             layer.spriteEffects[tileIndex], info.solid, info.liquid))
  }

  /** Cells (0, y) .. (n - 1, y) in order; the first failing cell ends the layer. */
  function ResolveRow(layer: TiledLayer, tileInfoList: seq<HeroTileInfo>, tileWidth: int, tileHeight: int,
                      y: int, n: nat): Result<seq<HeroTile>>
  {
    if n == 0 then Success([])
    else
      var front :- ResolveRow(layer, tileInfoList, tileWidth, tileHeight, y, n - 1);
      var tile :- ResolveCell(layer, tileInfoList, tileWidth, tileHeight, n - 1, y);
      Success(front + [tile])
  }

  /** Rows 0 .. m - 1 of a layer, one after the other. */
  function ResolveRows(layer: TiledLayer, tileInfoList: seq<HeroTileInfo>, tileWidth: int, tileHeight: int,
                       m: nat): Result<seq<HeroTile>>
  {
    if m == 0 then Success([])
    else
      var front :- ResolveRows(layer, tileInfoList, tileWidth, tileHeight, m - 1);
      var row :- ResolveRow(layer, tileInfoList, tileWidth, tileHeight, m - 1, Clamp(layer.width));
      Success(front + row)
  }

  /** A processed layer: its tiles row by row, its opacity, visible. */
  function ResolveLayer(layer: TiledLayer, tileInfoList: seq<HeroTileInfo>, tileWidth: int, tileHeight: int)
    : Result<HeroTilemapLayer>
  {
    var tiles :- ResolveRows(layer, tileInfoList, tileWidth, tileHeight, Clamp(layer.height));
    Success(HeroTilemapLayer(tiles, layer.opacity, true))
  }

  /** The processed layers in list order (the specification of ProcessLayers). */
  function ResolveLayers(layers: seq<TiledLayer>, tileInfoList: seq<HeroTileInfo>, tileWidth: int, tileHeight: int)
    : Result<seq<HeroTilemapLayer>>
    decreases |layers|
  {
    if layers == [] then Success([])
    else
      var earlier :- ResolveLayers(layers[..|layers| - 1], tileInfoList, tileWidth, tileHeight);
      var last :- ResolveLayer(layers[|layers| - 1], tileInfoList, tileWidth, tileHeight);
      Success(earlier + [last])
  }

  /** The nested loops of ProcessLayers for one layer: one tile per cell, row by row. */
  method ProcessLayerTiles(layer: TiledLayer, tileInfoList: seq<HeroTileInfo>, tileWidth: int, tileHeight: int)
    returns (r: Result<seq<HeroTile>>)
    ensures r == ResolveRows(layer, tileInfoList, tileWidth, tileHeight, Clamp(layer.height))
  {
    var tiles: seq<HeroTile> := [];
    var y := 0;
    while y < layer.height
      invariant 0 <= y <= Clamp(layer.height)
      invariant ResolveRows(layer, tileInfoList, tileWidth, tileHeight, y) == Success(tiles)
    {
      ghost var done := tiles;
      var x := 0;
      while x < layer.width
        invariant 0 <= x <= Clamp(layer.width)
        invariant ResolveRow(layer, tileInfoList, tileWidth, tileHeight, y, x).Success?
        invariant tiles == done + ResolveRow(layer, tileInfoList, tileWidth, tileHeight, y, x).value
      {
        ghost var cell := ResolveCell(layer, tileInfoList, tileWidth, tileHeight, x, y);
        ghost var row := ResolveRow(layer, tileInfoList, tileWidth, tileHeight, y, x).value;
        var index := y * layer.width + x;
        if !(0 <= index < |layer.tileIndices|) {
          CellFailureEndsLayer(layer, tileInfoList, tileWidth, tileHeight, x, y);
          return Failure(IndexOutOfRange);
        }
        var tileIndex := layer.tileIndices[index] - 1;
        var tile: HeroTile;
        if tileIndex == -1 {
          tile := BaseTile;
        } else {
          if !(0 <= tileIndex < |tileInfoList|) {
            CellFailureEndsLayer(layer, tileInfoList, tileWidth, tileHeight, x, y);
            return Failure(ArgumentOutOfRange);
          }
          var tileInfo := tileInfoList[tileIndex];
          if tileIndex >= |layer.spriteEffects| {
            CellFailureEndsLayer(layer, tileInfoList, tileWidth, tileHeight, x, y);
            return Failure(IndexOutOfRange);
          }
          tile := TexturedTile(tileInfo.texture, tileInfo.sourceRect,
                               Rectangle(x * tileWidth, y * tileHeight, tileWidth, tileHeight),
                               layer.spriteEffects[tileIndex], tileInfo.solid, tileInfo.liquid);
        }
        assert cell == Success(tile);
        RowStep(layer, tileInfoList, tileWidth, tileHeight, y, x);
        tiles := tiles + [tile];
        assert tiles == done + (row + [tile]);
        x := x + 1;
      }
      RowsStep(layer, tileInfoList, tileWidth, tileHeight, y);
      y := y + 1;
    }
    return Success(tiles);
  }

  /** HeroTilemapProcessor.ProcessLayers: one processed layer per input layer, in order. */
  method ProcessLayers(layers: seq<TiledLayer>, tileInfoList: seq<HeroTileInfo>, tileWidth: int, tileHeight: int)
    returns (r: Result<seq<HeroTilemapLayer>>)
    ensures r == ResolveLayers(layers, tileInfoList, tileWidth, tileHeight)
  {
    var processedLayers: seq<HeroTilemapLayer> := [];
    var k := 0;
    while k < |layers|
      invariant 0 <= k <= |layers|
      invariant ResolveLayers(layers[..k], tileInfoList, tileWidth, tileHeight) == Success(processedLayers)
    {
      var layer := layers[k];
      assert layers[..k + 1][..k] == layers[..k] && layers[..k + 1][k] == layer;
      var tiles := ProcessLayerTiles(layer, tileInfoList, tileWidth, tileHeight);
      if tiles.Failure? {
        LayersFailurePersists(layers, tileInfoList, tileWidth, tileHeight, k + 1);
        return Failure(tiles.error);
      }
      processedLayers := processedLayers + [HeroTilemapLayer(tiles.value, layer.opacity, true)];
      k := k + 1;
    }
    assert layers[..k] == layers;
    return Success(processedLayers);
  }

  /** A row that reaches cell x and a cell that resolves: the row through x + 1 ends with that tile. */
  lemma RowStep(layer: TiledLayer, tileInfoList: seq<HeroTileInfo>, tileWidth: int, tileHeight: int, y: int, x: nat)
    requires ResolveRow(layer, tileInfoList, tileWidth, tileHeight, y, x).Success?
    requires ResolveCell(layer, tileInfoList, tileWidth, tileHeight, x, y).Success?
    ensures ResolveRow(layer, tileInfoList, tileWidth, tileHeight, y, x + 1)
      == Success(ResolveRow(layer, tileInfoList, tileWidth, tileHeight, y, x).value
                 + [ResolveCell(layer, tileInfoList, tileWidth, tileHeight, x, y).value])
  {
  }

  /** Rows 0 .. y - 1 and a complete row y: rows 0 .. y are their tiles in order. */
  lemma RowsStep(layer: TiledLayer, tileInfoList: seq<HeroTileInfo>, tileWidth: int, tileHeight: int, y: nat)
    requires ResolveRows(layer, tileInfoList, tileWidth, tileHeight, y).Success?
    requires ResolveRow(layer, tileInfoList, tileWidth, tileHeight, y, Clamp(layer.width)).Success?
    ensures ResolveRows(layer, tileInfoList, tileWidth, tileHeight, y + 1)
      == Success(ResolveRows(layer, tileInfoList, tileWidth, tileHeight, y).value
                 + ResolveRow(layer, tileInfoList, tileWidth, tileHeight, y, Clamp(layer.width)).value)
  {
  }

  /** A failing cell ends its layer with the cell's error. */
  lemma CellFailureEndsLayer(layer: TiledLayer, tileInfoList: seq<HeroTileInfo>, tileWidth: int, tileHeight: int,
                             x: nat, y: nat)
    requires x < layer.width && y < layer.height
    requires ResolveRow(layer, tileInfoList, tileWidth, tileHeight, y, x).Success?
    requires ResolveRows(layer, tileInfoList, tileWidth, tileHeight, y).Success?
    requires ResolveCell(layer, tileInfoList, tileWidth, tileHeight, x, y).Failure?
    ensures ResolveRows(layer, tileInfoList, tileWidth, tileHeight, Clamp(layer.height))
      == Failure(ResolveCell(layer, tileInfoList, tileWidth, tileHeight, x, y).error)
  {
    RowFailStep(layer, tileInfoList, tileWidth, tileHeight, y, x);
    RowFailurePersists(layer, tileInfoList, tileWidth, tileHeight, y, x + 1, Clamp(layer.width));
    RowsFailStep(layer, tileInfoList, tileWidth, tileHeight, y);
    RowsFailurePersists(layer, tileInfoList, tileWidth, tileHeight, y + 1, Clamp(layer.height));
  }

  lemma RowFailStep(layer: TiledLayer, tileInfoList: seq<HeroTileInfo>, tileWidth: int, tileHeight: int, y: int, x: nat)
    requires ResolveRow(layer, tileInfoList, tileWidth, tileHeight, y, x).Success?
    requires ResolveCell(layer, tileInfoList, tileWidth, tileHeight, x, y).Failure?
    ensures ResolveRow(layer, tileInfoList, tileWidth, tileHeight, y, x + 1)
      == Failure(ResolveCell(layer, tileInfoList, tileWidth, tileHeight, x, y).error)
  {
  }

  lemma RowsFailStep(layer: TiledLayer, tileInfoList: seq<HeroTileInfo>, tileWidth: int, tileHeight: int, y: nat)
    requires ResolveRows(layer, tileInfoList, tileWidth, tileHeight, y).Success?
    requires ResolveRow(layer, tileInfoList, tileWidth, tileHeight, y, Clamp(layer.width)).Failure?
    ensures ResolveRows(layer, tileInfoList, tileWidth, tileHeight, y + 1)
      == Failure(ResolveRow(layer, tileInfoList, tileWidth, tileHeight, y, Clamp(layer.width)).error)
  {
  }

  lemma {:induction false} RowFailurePersists(layer: TiledLayer, tileInfoList: seq<HeroTileInfo>, tileWidth: int,
                                              tileHeight: int, y: int, k: nat, n: nat)
    requires k <= n
    requires ResolveRow(layer, tileInfoList, tileWidth, tileHeight, y, k).Failure?
    ensures ResolveRow(layer, tileInfoList, tileWidth, tileHeight, y, n) == ResolveRow(layer, tileInfoList, tileWidth, tileHeight, y, k)
    decreases n
  {
    if k < n {
      RowFailurePersists(layer, tileInfoList, tileWidth, tileHeight, y, k, n - 1);
    }
  }

  lemma {:induction false} RowsFailurePersists(layer: TiledLayer, tileInfoList: seq<HeroTileInfo>, tileWidth: int,
                                               tileHeight: int, k: nat, m: nat)
    requires k <= m
    requires ResolveRows(layer, tileInfoList, tileWidth, tileHeight, k).Failure?
    ensures ResolveRows(layer, tileInfoList, tileWidth, tileHeight, m) == ResolveRows(layer, tileInfoList, tileWidth, tileHeight, k)
    decreases m
  {
    if k < m {
      RowsFailurePersists(layer, tileInfoList, tileWidth, tileHeight, k, m - 1);
    }
  }

  lemma {:induction false} LayersFailurePersists(layers: seq<TiledLayer>, tileInfoList: seq<HeroTileInfo>, tileWidth: int,
                                                 tileHeight: int, k: nat)
    requires k <= |layers|
    requires ResolveLayers(layers[..k], tileInfoList, tileWidth, tileHeight).Failure?
    ensures ResolveLayers(layers, tileInfoList, tileWidth, tileHeight) == ResolveLayers(layers[..k], tileInfoList, tileWidth, tileHeight)
    decreases |layers| - k
  {
    if k < |layers| {
      var longer := layers[..k + 1];
      assert longer[..|longer| - 1] == layers[..k];
      LayersFailurePersists(layers, tileInfoList, tileWidth, tileHeight, k + 1);
    } else {
      assert layers[..k] == layers;
    }
  }

  // ---------------------------------------------------------------------
  // Properties of the resolved layers

  /** What one cell becomes. With index = y * Width + x and g the raw ID there:
      the cell fails when the index is outside TileIndices (IndexOutOfRange);
      g = 0 gives the placeholder and reads nothing else; otherwise slot g - 1
      must exist (else ArgumentOutOfRange) and so must SpriteEffects[g - 1]
      (else IndexOutOfRange), and the tile copies the slot's texture, source
      rectangle, solid and liquid, takes its effect from SpriteEffects[g - 1]
      (indexed by tile ID, not by cell) and has the world rectangle
      (x * tileWidth, y * tileHeight, tileWidth, tileHeight). */
  lemma ResolveCellMeaning(layer: TiledLayer, tileInfoList: seq<HeroTileInfo>, tileWidth: int, tileHeight: int,
                           x: int, y: int)
    ensures var index := y * layer.width + x;
      var r := ResolveCell(layer, tileInfoList, tileWidth, tileHeight, x, y);
      && (!(0 <= index < |layer.tileIndices|) ==> r == Failure(IndexOutOfRange))
      && (0 <= index < |layer.tileIndices| ==>
           var g := layer.tileIndices[index];
           && (r == Success(BaseTile) <==> g == 0)
           && (g != 0 && !(1 <= g <= |tileInfoList|) ==> r == Failure(ArgumentOutOfRange))
           && (1 <= g <= |tileInfoList| && g > |layer.spriteEffects| ==> r == Failure(IndexOutOfRange))
           && (1 <= g <= |tileInfoList| && g <= |layer.spriteEffects| ==>
                var info := tileInfoList[g - 1];
                r == Success(TexturedTile(info.texture, info.sourceRect, WorldRect(x, y, tileWidth, tileHeight),
                                          layer.spriteEffects[g - 1], info.solid, info.liquid))))
  {
  }

  /** A row is its cells in order: it exists iff every cell does, and
      otherwise fails with the error of its first failing cell. */
  lemma {:induction false} ResolveRowMeaning(layer: TiledLayer, tileInfoList: seq<HeroTileInfo>, tileWidth: int,
                                             tileHeight: int, y: int, n: nat)
    ensures var r := ResolveRow(layer, tileInfoList, tileWidth, tileHeight, y, n);
      r.Success? <==> forall x :: 0 <= x < n ==> ResolveCell(layer, tileInfoList, tileWidth, tileHeight, x, y).Success?
    ensures var r := ResolveRow(layer, tileInfoList, tileWidth, tileHeight, y, n);
      r.Success? ==> (|r.value| == n &&
        forall x :: 0 <= x < n ==> r.value[x] == ResolveCell(layer, tileInfoList, tileWidth, tileHeight, x, y).value)
    ensures var r := ResolveRow(layer, tileInfoList, tileWidth, tileHeight, y, n);
      r.Failure? ==> exists x :: 0 <= x < n && FirstFailure(layer, tileInfoList, tileWidth, tileHeight, x, y, r.error)
  {
    if n > 0 {
      ResolveRowMeaning(layer, tileInfoList, tileWidth, tileHeight, y, n - 1);
      var front := ResolveRow(layer, tileInfoList, tileWidth, tileHeight, y, n - 1);
      var r := ResolveRow(layer, tileInfoList, tileWidth, tileHeight, y, n);
      if front.Failure? {
        var x :| 0 <= x < n - 1 && FirstFailure(layer, tileInfoList, tileWidth, tileHeight, x, y, front.error);
        assert 0 <= x < n && FirstFailure(layer, tileInfoList, tileWidth, tileHeight, x, y, r.error);
      } else if r.Failure? {
        assert FirstFailure(layer, tileInfoList, tileWidth, tileHeight, n - 1, y, r.error);
      }
    }
  }

  /** Cell (x, y) fails with error e and the cells before it in its row do not fail. */
  predicate FirstFailure(layer: TiledLayer, tileInfoList: seq<HeroTileInfo>, tileWidth: int, tileHeight: int,
                         x: int, y: int, e: Error)
  {
    && ResolveCell(layer, tileInfoList, tileWidth, tileHeight, x, y) == Failure(e)
    && forall x' :: 0 <= x' < x ==> ResolveCell(layer, tileInfoList, tileWidth, tileHeight, x', y).Success?
  }

  /** The rows of a layer exist iff every cell (x, y) with x < Width and y < m does. */
  lemma {:induction false} ResolveRowsSucceed(layer: TiledLayer, tileInfoList: seq<HeroTileInfo>, tileWidth: int,
                                              tileHeight: int, m: nat)
    ensures ResolveRows(layer, tileInfoList, tileWidth, tileHeight, m).Success? <==>
      forall x, y :: 0 <= x < Clamp(layer.width) && 0 <= y < m ==>
        ResolveCell(layer, tileInfoList, tileWidth, tileHeight, x, y).Success?
  {
    if m > 0 {
      ResolveRowsSucceed(layer, tileInfoList, tileWidth, tileHeight, m - 1);
      ResolveRowMeaning(layer, tileInfoList, tileWidth, tileHeight, m - 1, Clamp(layer.width));
    }
  }

  /** Rows 0 .. m - 1 hold m * Width tiles. */
  lemma {:induction false} ResolveRowsLength(layer: TiledLayer, tileInfoList: seq<HeroTileInfo>, tileWidth: int,
                                             tileHeight: int, m: nat)
    requires ResolveRows(layer, tileInfoList, tileWidth, tileHeight, m).Success?
    ensures |ResolveRows(layer, tileInfoList, tileWidth, tileHeight, m).value| == m * Clamp(layer.width)
  {
    var w := Clamp(layer.width);
    if m > 0 {
      ResolveRowsLength(layer, tileInfoList, tileWidth, tileHeight, m - 1);
      ResolveRowMeaning(layer, tileInfoList, tileWidth, tileHeight, m - 1, w);
      assert (m - 1) * w + w == m * w;
    }
  }

  /** When the rows fail, they fail as the first failing row y does. */
  lemma {:induction false} ResolveRowsFailure(layer: TiledLayer, tileInfoList: seq<HeroTileInfo>, tileWidth: int,
                                              tileHeight: int, m: nat) returns (y: nat)
    requires ResolveRows(layer, tileInfoList, tileWidth, tileHeight, m).Failure?
    ensures y < m
    ensures ResolveRow(layer, tileInfoList, tileWidth, tileHeight, y, Clamp(layer.width))
      == ResolveRows(layer, tileInfoList, tileWidth, tileHeight, m)
    ensures forall y' :: 0 <= y' < y ==> ResolveRow(layer, tileInfoList, tileWidth, tileHeight, y', Clamp(layer.width)).Success?
  {
    var front := ResolveRows(layer, tileInfoList, tileWidth, tileHeight, m - 1);
    if front.Failure? {
      y := ResolveRowsFailure(layer, tileInfoList, tileWidth, tileHeight, m - 1);
    } else {
      y := m - 1;
      forall y' | 0 <= y' < y
        ensures ResolveRow(layer, tileInfoList, tileWidth, tileHeight, y', Clamp(layer.width)).Success?
      {
        RowOfRows(layer, tileInfoList, tileWidth, tileHeight, m - 1, y');
      }
    }
  }

  /** Rows that resolve together each resolve. */
  lemma {:induction false} RowOfRows(layer: TiledLayer, tileInfoList: seq<HeroTileInfo>, tileWidth: int,
                                     tileHeight: int, m: nat, y: nat)
    requires y < m
    requires ResolveRows(layer, tileInfoList, tileWidth, tileHeight, m).Success?
    ensures ResolveRow(layer, tileInfoList, tileWidth, tileHeight, y, Clamp(layer.width)).Success?
  {
    if y < m - 1 {
      RowOfRows(layer, tileInfoList, tileWidth, tileHeight, m - 1, y);
    }
  }

  /** The rows are row-major: cell (x, y) is tile y * Width + x. */
  lemma {:induction false} ResolveRowsAt(layer: TiledLayer, tileInfoList: seq<HeroTileInfo>, tileWidth: int,
                                         tileHeight: int, m: nat, x: nat, y: nat)
    requires x < Clamp(layer.width) && y < m
    requires ResolveRows(layer, tileInfoList, tileWidth, tileHeight, m).Success?
    ensures var tiles := ResolveRows(layer, tileInfoList, tileWidth, tileHeight, m).value;
      && y * Clamp(layer.width) + x < |tiles|
      && ResolveCell(layer, tileInfoList, tileWidth, tileHeight, x, y).Success?
      && tiles[y * Clamp(layer.width) + x] == ResolveCell(layer, tileInfoList, tileWidth, tileHeight, x, y).value
  {
    var w := Clamp(layer.width);
    ResolveRowsLength(layer, tileInfoList, tileWidth, tileHeight, m - 1);
    ResolveRowMeaning(layer, tileInfoList, tileWidth, tileHeight, m - 1, w);
    MulMono(y + 1, m, w);
    if y < m - 1 {
      MulMono(y + 1, m - 1, w);
      ResolveRowsAt(layer, tileInfoList, tileWidth, tileHeight, m - 1, x, y);
    } else {
      assert y * w == (m - 1) * w;
    }
  }

  /** A processed layer keeps the layer's opacity, is visible and has exactly
      Width * Height tiles (none when either is not positive); it exists iff
      every cell resolves. */
  lemma LayerShape(layer: TiledLayer, tileInfoList: seq<HeroTileInfo>, tileWidth: int, tileHeight: int)
    ensures var r := ResolveLayer(layer, tileInfoList, tileWidth, tileHeight);
      r.Success? <==> forall x, y :: 0 <= x < layer.width && 0 <= y < layer.height ==>
        ResolveCell(layer, tileInfoList, tileWidth, tileHeight, x, y).Success?
    ensures var r := ResolveLayer(layer, tileInfoList, tileWidth, tileHeight);
      r.Success? ==>
        && |r.value.tiles| == (if layer.width > 0 && layer.height > 0 then layer.width * layer.height else 0)
        && r.value.opacity == layer.opacity
        && r.value.visible
  {
    ResolveRowsSucceed(layer, tileInfoList, tileWidth, tileHeight, Clamp(layer.height));
    if ResolveLayer(layer, tileInfoList, tileWidth, tileHeight).Success? {
      ResolveRowsLength(layer, tileInfoList, tileWidth, tileHeight, Clamp(layer.height));
    }
  }

  /** Cell (x, y) of a processed layer is tile y * Width + x. */
  lemma LayerTileAt(layer: TiledLayer, tileInfoList: seq<HeroTileInfo>, tileWidth: int, tileHeight: int, x: nat, y: nat)
    requires x < layer.width && y < layer.height
    requires ResolveLayer(layer, tileInfoList, tileWidth, tileHeight).Success?
    ensures var tiles := ResolveLayer(layer, tileInfoList, tileWidth, tileHeight).value.tiles;
      && y * layer.width + x < |tiles|
      && ResolveCell(layer, tileInfoList, tileWidth, tileHeight, x, y).Success?
      && tiles[y * layer.width + x] == ResolveCell(layer, tileInfoList, tileWidth, tileHeight, x, y).value
  {
    ResolveRowsAt(layer, tileInfoList, tileWidth, tileHeight, Clamp(layer.height), x, y);
  }

  /** Layer order is preserved: the processed list exists iff every layer
      resolves, and then layer k of the output is input layer k resolved. */
  lemma {:induction false} ResolveLayersMeaning(layers: seq<TiledLayer>, tileInfoList: seq<HeroTileInfo>, tileWidth: int,
                                                tileHeight: int)
    ensures var r := ResolveLayers(layers, tileInfoList, tileWidth, tileHeight);
      r.Success? <==> forall k :: 0 <= k < |layers| ==> ResolveLayer(layers[k], tileInfoList, tileWidth, tileHeight).Success?
    ensures var r := ResolveLayers(layers, tileInfoList, tileWidth, tileHeight);
      r.Success? ==> (|r.value| == |layers| &&
        forall k :: 0 <= k < |layers| ==> r.value[k] == ResolveLayer(layers[k], tileInfoList, tileWidth, tileHeight).value)
    decreases |layers|
  {
    if layers != [] {
      var front := layers[..|layers| - 1];
      ResolveLayersMeaning(front, tileInfoList, tileWidth, tileHeight);
      assert forall k :: 0 <= k < |front| ==> front[k] == layers[k];
    }
  }

  /** A failing layer fails with the error of its first failing cell in row-major order. */
  lemma LayerFailsAtFirstBadCell(layer: TiledLayer, tileInfoList: seq<HeroTileInfo>, tileWidth: int, tileHeight: int)
    returns (x: nat, y: nat)
    requires ResolveLayer(layer, tileInfoList, tileWidth, tileHeight).Failure?
    ensures x < layer.width && y < layer.height
    ensures ResolveCell(layer, tileInfoList, tileWidth, tileHeight, x, y)
      == Failure(ResolveLayer(layer, tileInfoList, tileWidth, tileHeight).error)
    ensures forall x', y' :: 0 <= x' < layer.width && 0 <= y' < layer.height && (y' < y || (y' == y && x' < x)) ==>
      ResolveCell(layer, tileInfoList, tileWidth, tileHeight, x', y').Success?
  {
    var w := Clamp(layer.width);
    y := ResolveRowsFailure(layer, tileInfoList, tileWidth, tileHeight, Clamp(layer.height));
    ResolveRowMeaning(layer, tileInfoList, tileWidth, tileHeight, y, w);
    var e := ResolveLayer(layer, tileInfoList, tileWidth, tileHeight).error;
    x :| 0 <= x < w && FirstFailure(layer, tileInfoList, tileWidth, tileHeight, x, y, e);
    forall x', y' | 0 <= x' < w && 0 <= y' < y
      ensures ResolveCell(layer, tileInfoList, tileWidth, tileHeight, x', y').Success?
    {
      ResolveRowMeaning(layer, tileInfoList, tileWidth, tileHeight, y', w);
    }
  }

  // ---------------------------------------------------------------------
  // Process: the hero and the enemies

  predicate IsSpritesGroup(group: ObjectGroup) { group.name == Some("sprites") }

  predicate IsHero(obj: TiledObject) { obj.name == Some("hero") }

  predicate IsEnemy(obj: TiledObject) { obj.name == Some("enemy") }

  /** The health every enemy gets; its `health` property is read but not parsed. */
  const EnemyHealth := 10

  /** The objects of the first object group named "sprites"; when there is
      none, reading the missing group's name dereferences null. */
  function SpriteObjects(groups: seq<ObjectGroup>): Result<seq<TiledObject>>
  {
    var group := Find(groups, IsSpritesGroup);
    if group.None? then Failure(NullReference) else Success(group.value.objects)
  }

  /** The hero: the first object named "hero", placed at its (X, Y), with the
      texture built from its "image" property. */
  function HeroOf(objects: seq<TiledObject>, build: TextureBuilder): Result<HeroContent>
  {
    var heroObj := Find(objects, IsHero);
    if heroObj.None? then Failure(NullReference)
    else if "image" !in heroObj.value.properties then Failure(KeyNotFound)
    else
      var path := heroObj.value.properties["image"];
      var image := build(Some(path));
      if image.None? then Failure(AssetBuild)
      else Success(HeroContent(Texture2D(ExternalReference(Some(path)), image.value), Vector2(heroObj.value.x, heroObj.value.y)))
  }

  /** The enemies made from the enemy objects, in order: each at its (X, Y)
      with health 10; an object without a "health" property throws. */
  function EnemiesOf(enemyObjs: seq<TiledObject>): Result<seq<EnemyContent>>
  {
    if exists i :: 0 <= i < |enemyObjs| && "health" !in enemyObjs[i].properties then Failure(KeyNotFound)
    else Success(seq(|enemyObjs|, i requires 0 <= i < |enemyObjs| =>
                       EnemyContent(EnemyHealth, Vector2(enemyObjs[i].x, enemyObjs[i].y))))
  }

  /** The whole processor (the specification of Process). */
  function ProcessMap(input: TiledMap, build: TextureBuilder): Result<HeroTilemapContent>
  {
    var tiles :- AtlasTable(input.tileWidth, input.tileHeight, input.tilesets, build);
    var layers :- ResolveLayers(input.tileLayers, tiles, input.tileWidth, input.tileHeight);
    Spawns(layers, input.objectGroups, build)
  }

  /** The content once the layers are processed: the hero and the enemies of the "sprites" group. */
  function Spawns(layers: seq<HeroTilemapLayer>, groups: seq<ObjectGroup>, build: TextureBuilder): Result<HeroTilemapContent>
  {
    var objects :- SpriteObjects(groups);
    var hero :- HeroOf(objects, build);
    var enemies :- EnemiesOf(FindAll(objects, IsEnemy));
    Success(HeroTilemapContent(layers, hero, enemies))
  }

  /** The foreach loop of Process over the enemy objects. */
  method BuildEnemies(enemiesObjs: seq<TiledObject>) returns (r: Result<seq<EnemyContent>>)
    ensures r == EnemiesOf(enemiesObjs)
  {
    var enemies: seq<EnemyContent> := [];
    var i := 0;
    while i < |enemiesObjs|
      invariant 0 <= i <= |enemiesObjs|
      invariant forall k :: 0 <= k < i ==> "health" in enemiesObjs[k].properties
      invariant enemies == seq(i, k requires 0 <= k < i => EnemyContent(EnemyHealth, Vector2(enemiesObjs[k].x, enemiesObjs[k].y)))
    {
      var enemyObj := enemiesObjs[i];
      var health := 10;
      if "health" !in enemyObj.properties {
        return Failure(KeyNotFound);
      }
      var enemy := EnemyContent(health, Vector2(enemyObj.x, enemyObj.y));
      enemies := enemies + [enemy];
      i := i + 1;
    }
    return Success(enemies);
  }

  /** HeroTilemapProcessor.Process: the tile table, the layers, then the hero
      and the enemies of the "sprites" group. */
  method Process(input: TiledMap, build: TextureBuilder) returns (r: Result<HeroTilemapContent>)
    ensures r == ProcessMap(input, build)
  {
    var tiles := ProcessTilesets(input.tileWidth, input.tileHeight, input.tilesets, build);
    if tiles.Failure? {
      return Failure(tiles.error);
    }
    var layers := ProcessLayers(input.tileLayers, tiles.value, input.tileWidth, input.tileHeight);
    if layers.Failure? {
      return Failure(layers.error);
    }
    var objGroup := Find(input.objectGroups, IsSpritesGroup);
    if objGroup.None? {
      return Failure(NullReference);
    }
    var heroObj := Find(objGroup.value.objects, IsHero);
    if heroObj.None? {
      return Failure(NullReference);
    }
    if "image" !in heroObj.value.properties {
      return Failure(KeyNotFound);
    }
    var path := heroObj.value.properties["image"];
    var texture := build(Some(path));
    if texture.None? {
      return Failure(AssetBuild);
    }
    var hero := HeroContent(Texture2D(ExternalReference(Some(path)), texture.value), Vector2(heroObj.value.x, heroObj.value.y));
    var enemiesObjs := FindAll(objGroup.value.objects, IsEnemy);
    var enemies := BuildEnemies(enemiesObjs);
    if enemies.Failure? {
      return Failure(enemies.error);
    }
    return Success(HeroTilemapContent(layers.value, hero, enemies.value));
  }

  // ---------------------------------------------------------------------
  // Properties of Process

  /** The hero comes from the first "sprites" group and is its first "hero"
      object: it stands at that object's (X, Y) and has the texture built from
      its "image" property. */
  lemma HeroIsFirstHeroOfSprites(input: TiledMap, build: TextureBuilder) returns (g: nat, o: nat)
    requires ProcessMap(input, build).Success?
    ensures g < |input.objectGroups| && IsSpritesGroup(input.objectGroups[g])
    ensures forall g' :: 0 <= g' < g ==> !IsSpritesGroup(input.objectGroups[g'])
    ensures var objects := input.objectGroups[g].objects;
      && o < |objects| && IsHero(objects[o])
      && (forall o' :: 0 <= o' < o ==> !IsHero(objects[o']))
      && "image" in objects[o].properties
      && ProcessMap(input, build).value.hero.position == Vector2(objects[o].x, objects[o].y)
      && ProcessMap(input, build).value.hero.texture.source == ExternalReference(Some(objects[o].properties["image"]))
  {
    var tiles := AtlasTable(input.tileWidth, input.tileHeight, input.tilesets, build).value;
    var layers := ResolveLayers(input.tileLayers, tiles, input.tileWidth, input.tileHeight).value;
    assert ProcessMap(input, build) == Spawns(layers, input.objectGroups, build);
    var objects := SpriteObjects(input.objectGroups).value;
    assert ProcessMap(input, build).value.hero == HeroOf(objects, build).value;
    g := FindIndex(input.objectGroups, IsSpritesGroup);
    o := FindIndex(objects, IsHero);
  }

  /** The enemies are the "enemy" objects of the sprites group, in declaration
      order, one each: enemy i stands at object i's (X, Y) and has health 10,
      whatever its "health" property says. */
  lemma EnemiesAreEnemyObjects(input: TiledMap, build: TextureBuilder)
    requires ProcessMap(input, build).Success?
    ensures var objects := SpriteObjects(input.objectGroups).value;
      var enemyObjs := FindAll(objects, IsEnemy);
      var enemies := ProcessMap(input, build).value.enemies;
      && |enemies| == |enemyObjs|
      && (forall i :: 0 <= i < |enemies| ==>
            enemies[i] == EnemyContent(10, Vector2(enemyObjs[i].x, enemyObjs[i].y)) && IsEnemy(enemyObjs[i]))
      && (forall i :: 0 <= i < |objects| && IsEnemy(objects[i]) ==> objects[i] in enemyObjs)
      && (forall i :: 0 <= i < |objects| ==> "health" in objects[i].properties || !IsEnemy(objects[i]))
  {
  }

  /** Once the tiles and layers are processed: a map without a "sprites"
      group, a sprites group without a "hero", a hero without an "image" and
      an enemy without a "health" each make the processor throw. */
  lemma ExtractionFailures(input: TiledMap, build: TextureBuilder)
    requires AtlasTable(input.tileWidth, input.tileHeight, input.tilesets, build).Success?
    requires ResolveLayers(input.tileLayers, AtlasTable(input.tileWidth, input.tileHeight, input.tilesets, build).value,
                           input.tileWidth, input.tileHeight).Success?
    ensures (forall g :: 0 <= g < |input.objectGroups| ==> !IsSpritesGroup(input.objectGroups[g])) ==>
      ProcessMap(input, build) == Failure(NullReference)
    ensures SpriteObjects(input.objectGroups).Success? ==>
      var objects := SpriteObjects(input.objectGroups).value;
      && ((forall o :: 0 <= o < |objects| ==> !IsHero(objects[o])) ==> ProcessMap(input, build) == Failure(NullReference))
      && (Find(objects, IsHero).Some? && "image" !in Find(objects, IsHero).value.properties ==>
            ProcessMap(input, build) == Failure(KeyNotFound))
      && (HeroOf(objects, build).Success? &&
          (exists o :: 0 <= o < |objects| && IsEnemy(objects[o]) && "health" !in objects[o].properties) ==>
            ProcessMap(input, build) == Failure(KeyNotFound))
  {
    var tiles := AtlasTable(input.tileWidth, input.tileHeight, input.tilesets, build).value;
    var layers := ResolveLayers(input.tileLayers, tiles, input.tileWidth, input.tileHeight).value;
    assert ProcessMap(input, build) == Spawns(layers, input.objectGroups, build);
    if SpriteObjects(input.objectGroups).Success? {
      var objects := SpriteObjects(input.objectGroups).value;
      var enemyObjs := FindAll(objects, IsEnemy);
      if o :| 0 <= o < |objects| && IsEnemy(objects[o]) && "health" !in objects[o].properties {
        var i :| 0 <= i < |enemyObjs| && enemyObjs[i] == objects[o];
        assert EnemiesOf(enemyObjs) == Failure(KeyNotFound);
      }
    }
  }

  /** A map with no tilesets, no layers and only a sprites group yields what its hero and enemies yield. */
  lemma SpritesOnlyMap(objects: seq<TiledObject>, build: TextureBuilder)
    ensures ProcessMap(TiledMap(32, 32, [], [], [ObjectGroup(Some("sprites"), objects)]), build) ==
      var hero :- HeroOf(objects, build);
      var enemies :- EnemiesOf(FindAll(objects, IsEnemy));
      Success(HeroTilemapContent([], hero, enemies))
  {
    var groups := [ObjectGroup(Some("sprites"), objects)];
    assert Find(groups, IsSpritesGroup) == Some(groups[0]);
  }

  /** The hero and the enemy objects of the two examples below. */
  lemma ExampleObjects(hero: TiledObject, first: TiledObject, second: TiledObject, build: TextureBuilder)
    requires hero == TiledObject(Some("hero"), 64.0, 96.0, map["image" := "hero.png"])
    requires IsEnemy(first) && IsEnemy(second)
    requires build(Some("hero.png")).Some?
    ensures FindAll([hero, first, second], IsEnemy) == [first, second]
    ensures HeroOf([hero, first, second], build) ==
      Success(HeroContent(Texture2D(ExternalReference(Some("hero.png")), build(Some("hero.png")).value), Vector2(64.0, 96.0)))
  {
    var objects := [hero, first, second];
    assert objects[1..] == [first, second];
    assert FindAll([first, second], IsEnemy) == [first, second] by {
      assert [first, second][1..] == [second] && [second][1..] == [];
      assert FindAll([second], IsEnemy) == [second];
    }
    assert Find(objects, IsHero) == Some(hero);
  }

  lemma ExampleEnemies(first: TiledObject, second: TiledObject)
    requires first == TiledObject(Some("enemy"), 128.0, 96.0, map["health" := "25"])
    requires second == TiledObject(Some("enemy"), 200.0, 96.0, map["health" := "25"])
    ensures EnemiesOf([first, second]) == Success([EnemyContent(10, Vector2(128.0, 96.0)), EnemyContent(10, Vector2(200.0, 96.0))])
  {
    var enemyObjs := [first, second];
    assert forall i :: 0 <= i < |enemyObjs| ==> "health" in enemyObjs[i].properties;
    var enemies := EnemiesOf(enemyObjs).value;
    assert |enemies| == 2 && enemies[0] == EnemyContent(10, Vector2(128.0, 96.0)) && enemies[1] == EnemyContent(10, Vector2(200.0, 96.0));
    assert enemies == [EnemyContent(10, Vector2(128.0, 96.0)), EnemyContent(10, Vector2(200.0, 96.0))];
  }

  /** A sprites group with a hero at (64, 96) whose image is "hero.png" and two
      enemies at (128, 96) and (200, 96) whose "health" is "25": both enemies
      get health 10. */
  lemma ExampleSpawns(build: TextureBuilder)
    requires build(Some("hero.png")).Some?
    ensures var hero := TiledObject(Some("hero"), 64.0, 96.0, map["image" := "hero.png"]);
      var first := TiledObject(Some("enemy"), 128.0, 96.0, map["health" := "25"]);
      var second := TiledObject(Some("enemy"), 200.0, 96.0, map["health" := "25"]);
      var input := TiledMap(32, 32, [], [], [ObjectGroup(Some("sprites"), [hero, first, second])]);
      ProcessMap(input, build) ==
        Success(HeroTilemapContent([],
                                   HeroContent(Texture2D(ExternalReference(Some("hero.png")), build(Some("hero.png")).value),
                                               Vector2(64.0, 96.0)),
                                   [EnemyContent(10, Vector2(128.0, 96.0)), EnemyContent(10, Vector2(200.0, 96.0))]))
  {
    var hero := TiledObject(Some("hero"), 64.0, 96.0, map["image" := "hero.png"]);
    var first := TiledObject(Some("enemy"), 128.0, 96.0, map["health" := "25"]);
    var second := TiledObject(Some("enemy"), 200.0, 96.0, map["health" := "25"]);
    var objects := [hero, first, second];
    ExampleObjects(hero, first, second, build);
    SpritesOnlyMap(objects, build);
    ExampleEnemies(first, second);
  }

  /** The same group with the first enemy lacking a "health" property makes
      the processor throw KeyNotFound instead of defaulting the health. */
  lemma ExampleEnemyWithoutHealth(build: TextureBuilder)
    requires build(Some("hero.png")).Some?
    ensures var hero := TiledObject(Some("hero"), 64.0, 96.0, map["image" := "hero.png"]);
      var first := TiledObject(Some("enemy"), 128.0, 96.0, map[]);
      var second := TiledObject(Some("enemy"), 200.0, 96.0, map["health" := "25"]);
      var input := TiledMap(32, 32, [], [], [ObjectGroup(Some("sprites"), [hero, first, second])]);
      ProcessMap(input, build) == Failure(KeyNotFound)
  {
    var hero := TiledObject(Some("hero"), 64.0, 96.0, map["image" := "hero.png"]);
    var first := TiledObject(Some("enemy"), 128.0, 96.0, map[]);
    var second := TiledObject(Some("enemy"), 200.0, 96.0, map["health" := "25"]);
    var objects := [hero, first, second];
    ExampleObjects(hero, first, second, build);
    SpritesOnlyMap(objects, build);
    assert EnemiesOf([first, second]) == Failure(KeyNotFound) by {
      assert "health" !in [first, second][0].properties;
    }
  }

  // ---------------------------------------------------------------------
  // Across the stages

  /** A cell holding ID 1 + (slots of the tilesets before k) + sy * columns + sx
      is drawn from slot (sx, sy) of tileset k: its texture, its source
      rectangle (sx*(tw+s)+m, sy*(th+s)+m, tw, th) and its flags. */
  lemma CellShowsTilesetSlot(tileWidth: int, tileHeight: int, tilesets: seq<TilesetContent>, build: TextureBuilder,
                             layer: TiledLayer, x: int, y: int, k: nat, sx: int, sy: int)
    requires AtlasTable(tileWidth, tileHeight, tilesets, build).Success?
    requires k < |tilesets|
    requires build(tilesets[k].imageFilename).Some?
    requires tileWidth + tilesets[k].spacing != 0 && tileHeight + tilesets[k].spacing != 0
    requires 0 <= sx < TileCount(build(tilesets[k].imageFilename).value.width, tilesets[k].margin, tileWidth, tilesets[k].spacing)
    requires 0 <= sy < TileCount(build(tilesets[k].imageFilename).value.height, tilesets[k].margin, tileHeight, tilesets[k].spacing)
    requires 0 <= y * layer.width + x < |layer.tileIndices|
    requires AtlasTable(tileWidth, tileHeight, tilesets[..k], build).Success?
    requires layer.tileIndices[y * layer.width + x] ==
      1 + |AtlasTable(tileWidth, tileHeight, tilesets[..k], build).value|
        + sy * TileCount(build(tilesets[k].imageFilename).value.width, tilesets[k].margin, tileWidth, tilesets[k].spacing) + sx
    requires 1 <= layer.tileIndices[y * layer.width + x] <= |layer.spriteEffects|
    ensures var g := layer.tileIndices[y * layer.width + x];
      var tileset := tilesets[k];
      ResolveCell(layer, AtlasTable(tileWidth, tileHeight, tilesets, build).value, tileWidth, tileHeight, x, y) ==
        Success(TexturedTile(ExternalReference(tileset.imageFilename),
                             SourceRect(sx, sy, tileWidth, tileHeight, tileset.margin, tileset.spacing),
                             WorldRect(x, y, tileWidth, tileHeight),
                             layer.spriteEffects[g - 1],
                             TileFlag(tileset.tileProperties, 1, "soild"), TileFlag(tileset.tileProperties, 1, "liquid")))
  {
    var tileset := tilesets[k];
    var table := AtlasTable(tileWidth, tileHeight, tilesets, build).value;
    var g := layer.tileIndices[y * layer.width + x];
    var j := AtlasSlotAt(tileWidth, tileHeight, tilesets, build, k, sx, sy);
    assert g - 1 == |AtlasTable(tileWidth, tileHeight, tilesets[..k], build).value| + j;
    assert table[g - 1] == HeroTileInfo(ExternalReference(tileset.imageFilename),
                                        SourceRect(sx, sy, tileWidth, tileHeight, tileset.margin, tileset.spacing),
                                        TileFlag(tileset.tileProperties, 1, "soild"), TileFlag(tileset.tileProperties, 1, "liquid"));
    ResolveTextured(layer, table, tileWidth, tileHeight, x, y);
  }

  /** Slot (sx, sy) of tileset k sits in the global table at index j past the
      slots of the tilesets before k, where j = sy * columns + sx. */
  lemma AtlasSlotAt(tileWidth: int, tileHeight: int, tilesets: seq<TilesetContent>, build: TextureBuilder,
                    k: nat, sx: int, sy: int) returns (j: nat)
    requires AtlasTable(tileWidth, tileHeight, tilesets, build).Success?
    requires k < |tilesets|
    requires build(tilesets[k].imageFilename).Some?
    requires tileWidth + tilesets[k].spacing != 0 && tileHeight + tilesets[k].spacing != 0
    requires 0 <= sx < TileCount(build(tilesets[k].imageFilename).value.width, tilesets[k].margin, tileWidth, tilesets[k].spacing)
    requires 0 <= sy < TileCount(build(tilesets[k].imageFilename).value.height, tilesets[k].margin, tileHeight, tilesets[k].spacing)
    ensures j == sy * TileCount(build(tilesets[k].imageFilename).value.width, tilesets[k].margin, tileWidth, tilesets[k].spacing) + sx
    ensures AtlasTable(tileWidth, tileHeight, tilesets[..k], build).Success?
    ensures var tileset := tilesets[k];
      var table := AtlasTable(tileWidth, tileHeight, tilesets, build).value;
      var offset := |AtlasTable(tileWidth, tileHeight, tilesets[..k], build).value|;
      && offset + j < |table|
      && table[offset + j] == HeroTileInfo(ExternalReference(tileset.imageFilename),
                                           SourceRect(sx, sy, tileWidth, tileHeight, tileset.margin, tileset.spacing),
                                           TileFlag(tileset.tileProperties, 1, "soild"), TileFlag(tileset.tileProperties, 1, "liquid"))
  {
    var tileset := tilesets[k];
    var image := build(tileset.imageFilename).value;
    var columns := TileCount(image.width, tileset.margin, tileWidth, tileset.spacing);
    j := SlotIndex(sx, sy, columns);
    var info := HeroTileInfo(ExternalReference(tileset.imageFilename),
                             SourceRect(sx, sy, tileWidth, tileHeight, tileset.margin, tileset.spacing),
                             TileFlag(tileset.tileProperties, 1, "soild"), TileFlag(tileset.tileProperties, 1, "liquid"));
    assert TilesetAtlas(tileWidth, tileHeight, tileset, build).Success?
        && j < |TilesetAtlas(tileWidth, tileHeight, tileset, build).value|
        && TilesetAtlas(tileWidth, tileHeight, tileset, build).value[j] == info by {
      assert TilesetAtlas(tileWidth, tileHeight, tileset, build) == TilesetSlots(tileWidth, tileHeight, tileset, image);
      TilesetSlotAt(tileWidth, tileHeight, tileset, image, sx, sy);
    }
    AtlasOffset(tileWidth, tileHeight, tilesets, build, k, j);
  }

  /** The row-major index of grid position (x, y) in a grid `columns` wide. */
  lemma SlotIndex(x: int, y: int, columns: int) returns (j: nat)
    requires 0 <= x < columns && 0 <= y
    ensures j == y * columns + x
  {
    MulMono(0, y, columns);
    j := y * columns + x;
  }

  /** A cell holding a global ID within the table and within the effects array shows that table entry. */
  lemma ResolveTextured(layer: TiledLayer, tileInfoList: seq<HeroTileInfo>, tileWidth: int, tileHeight: int, x: int, y: int)
    requires 0 <= y * layer.width + x < |layer.tileIndices|
    requires 1 <= layer.tileIndices[y * layer.width + x] <= |tileInfoList|
    requires layer.tileIndices[y * layer.width + x] <= |layer.spriteEffects|
    ensures var info := tileInfoList[layer.tileIndices[y * layer.width + x] - 1];
      ResolveCell(layer, tileInfoList, tileWidth, tileHeight, x, y)
        == Success(TexturedTile(info.texture, info.sourceRect, WorldRect(x, y, tileWidth, tileHeight),
                                layer.spriteEffects[layer.tileIndices[y * layer.width + x] - 1], info.solid, info.liquid))
  {
  }
}
