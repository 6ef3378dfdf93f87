# Tilemap pipeline: a Dafny model

This project models the two central stages of the tilemap content pipeline, a
MonoGame content pipeline extension that reads Tiled (`.tmx`) maps.

1. **The importer** (`TiledImporter`) reads a `layer` element. It allocates the
   layer's two parallel arrays, `TileIndices` and `SpriteEffects`, of length
   `Width * Height`. It then fills them from the base64 (optionally gzip) `data`
   payload, one little-endian 32-bit cell at a time. Bits 31, 30 and 29 of a
   cell are the horizontal, vertical and diagonal flip flags, and the stored ID
   is the cell with those bits cleared. The importer also reads a `tileset`
   element: its required and optional attributes and its `image` source.
2. **The processor** (`HeroTilemapProcessor`) has three steps:
   - It slices every tileset image into source rectangles using the margin and
     spacing arithmetic, and appends them row-major into one global tile table.
   - It resolves every layer cell's 1-based global ID against that table,
     giving either a placeholder tile or a textured tile.
   - It extracts the hero and the enemies from the `"sprites"` object group.

The model is in four modules:

- `NetRuntime` (`net_runtime.dfy`) holds what the code borrows from .NET:
  - the exceptions it can raise, as an `Error` datatype inside a `Result`;
  - unchecked 32-bit `int` arithmetic and C#'s truncating division;
  - `int.Parse`/`int.TryParse` and `bool.TryParse`;
  - `List<T>.Find`/`FindAll` and `GetValueOrDefault`.
- `TileCells` (`tile_cells.dfy`) holds the packed cell format: the flip bits,
  the tile ID, and little-endian 32-bit reads and writes.
- `TiledImporter` (`tiled_importer.dfy`):
  - `LoadLayer` is a method over a `LayerContent` class with two `array`
    fields, proved against the value-level specification `LoadLayerSpec`.
  - `LoadTileset` is a method with its read loop, proved against `LoadTilesetSpec`.
- `HeroTilemapProcessor` (`hero_tilemap_processor.dfy`):
  - `ProcessTilesets`, `ProcessLayers` and `Process` are methods whose nested
    loops append to lists.
  - Each is proved equal to a specification function: `AtlasTable`,
    `ResolveLayers` and `ProcessMap`.
  - Lemmas then state what those functions promise.

An exception in the source is a `Failure(e)` in the model. Each error case the
code can reach is modelled:
- `int.Parse` of an absent or malformed attribute;
- a negative array length;
- an unknown encoding;
- a stream that ends early;
- a bad tile ID;
- a missing object group, object or property;
- a texture that does not build.

Quirks of the code are kept as written:
- the diagonal flip bit adds `FlipVertically & FlipHorizontally`, the empty set;
- the tile properties are looked up for tile index 1 for every slot;
- the solid flag is read from the key `"soild"`;
- a textured tile takes its effect from `SpriteEffects[g - 1]`, indexed by tile ID;
- every enemy has health 10: its `health` property is read but never parsed, and a
  missing one throws `KeyNotFound`, with no default.

Behaviour of the code worth knowing, which the model follows:
- A short uncompressed payload is not an error. The buffer is `4n + 1024`
  bytes and zero past the payload, so the missing cells read as 0.
- A `compression` value other than `"gzip"` is read as uncompressed data, not rejected.
- A `data` element without `encoding` leaves the arrays at zero. The code does
  not read inline IDs.
- The diagonal flag is dropped rather than kept as a third flag.
- The tile ID reaches the tile table unchecked against any tileset's range. An
  ID beyond the table fails with the list indexer's `ArgumentOutOfRange`.

## Model

| member | source | states |
|---|---|---|
| NetRuntime.Wrap32 | TilemapPipeline/TiledImporter.cs:157-158 | unchecked `int` arithmetic: the result is the unique 32-bit value congruent to the exact product mod 2^32, equal to it when it fits |
| NetRuntime.Wrap32Unique | TilemapPipeline/TiledImporter.cs:179 | any 32-bit value congruent to x mod 2^32 is Wrap32(x) |
| NetRuntime.Quot | TilemapPipeline/HeroTilemapProcessor.cs:141-142 | C# `/` rounds toward zero: the remainder is smaller than the divisor in magnitude and has the sign of the dividend |
| NetRuntime.TrimStart | TilemapPipeline/TiledImporter.cs:107 | the number parser's leading-blank trim removes exactly the leading characters that match, and the result is a suffix |
| NetRuntime.TrimEnd | TilemapPipeline/TiledImporter.cs:107 | the trailing trim removes exactly the trailing characters that match, and the result is a prefix |
| NetRuntime.ParseInt32 | TilemapPipeline/TiledImporter.cs:107-109 | `int.Parse` yields a 32-bit value or throws one of ArgumentNull, Format and Overflow, with ArgumentNull exactly when the attribute is absent |
| NetRuntime.ParseDecimal | TilemapPipeline/TiledImporter.cs:107 | `int.Parse` reads back the decimal spelling of every 32-bit value |
| NetRuntime.TryParseInt32Decimal | TilemapPipeline/TiledImporter.cs:112-113 | `int.TryParse` of the decimal spelling of a 32-bit value leaves that value |
| NetRuntime.TryParseInt32WithoutDigits | TilemapPipeline/TiledImporter.cs:107-113 | an absent attribute, or one with no digit, makes `int.Parse` throw and leaves 0 for `int.TryParse` |
| NetRuntime.TrimStartBlank | TilemapPipeline/HeroTilemapProcessor.cs:163-164 | `bool.TryParse`'s leading trim removes exactly a prefix of `char.IsWhiteSpace` characters and NULs |
| NetRuntime.TrimEndBlank | TilemapPipeline/HeroTilemapProcessor.cs:163-164 | the trailing trim removes exactly a suffix of `char.IsWhiteSpace` characters and NULs |
| NetRuntime.TryParseBoolAccepts | TilemapPipeline/HeroTilemapProcessor.cs:163-164 | `bool.TryParse` of p + c + q, with p and q made of `char.IsWhiteSpace` characters and NULs and c "true" or "false" in any letter case, gives that value |
| NetRuntime.TryParseBoolDecomposes | TilemapPipeline/HeroTilemapProcessor.cs:163-164 | conversely, any text `bool.TryParse` accepts is such a p + c + q, with c spelling the value it gives |
| NetRuntime.SplitTrimmed | TilemapPipeline/HeroTilemapProcessor.cs:163-164 | any text is its dropped leading characters, its trimmed core and its dropped trailing characters |
| NetRuntime.TryParseBoolFalse | TilemapPipeline/HeroTilemapProcessor.cs:158-164 | the default text "false" makes a flag false |
| NetRuntime.Find | TilemapPipeline/HeroTilemapProcessor.cs:49 | `List.Find` returns null exactly when nothing matches, and otherwise the first matching element |
| NetRuntime.FindIndex | TilemapPipeline/HeroTilemapProcessor.cs:53 | when `Find` succeeds, its result sits at an index before which nothing matches |
| NetRuntime.FindAll | TilemapPipeline/HeroTilemapProcessor.cs:73 | `List.FindAll` keeps exactly the matching elements |
| NetRuntime.FindAllAppend | TilemapPipeline/HeroTilemapProcessor.cs:73 | `FindAll` keeps list order: it distributes over concatenation |
| TileCells.CellEffects | TilemapPipeline/TiledImporter.cs:194-211 | the effect holds FlipHorizontally iff bit 31 of the cell is set and FlipVertically iff bit 30 is set |
| TileCells.CellTileId | TilemapPipeline/TiledImporter.cs:214-217 | the stored ID, the cell with bits 31..29 cleared, lies in [0, 2^29) |
| TileCells.CellDecomposes | TilemapPipeline/TiledImporter.cs:214 | a cell is its stored ID plus its three flag bits, so clearing removes exactly bits 31, 30 and 29 |
| TileCells.HasFlag | TilemapPipeline/TiledImporter.cs:195-205 | the test of one flip bit; its meaning, bit k of the cell, is stated by CellEffects and CellDecomposes |
| TileCells.ClearFlipBits | TilemapPipeline/TiledImporter.cs:214 | the cleared value is below 2^29 and agrees with the cell in bits 0..28; CellDecomposes states that exactly bits 31, 30 and 29 are removed |
| TileCells.CellRoundTrip | TilemapPipeline/TiledImporter.cs:192-217 | decoding a cell packed from (id, H, V, D) gives back id and the H and V flags |
| TileCells.DiagonalBitIgnored | TilemapPipeline/TiledImporter.cs:205-208 | two cells that differ only in bit 29 decode to the same (ID, effect) pair |
| TileCells.WriteUInt32 | TilemapPipeline/TiledImporter.cs:192 | a 32-bit value is written as four bytes |
| TileCells.ReadWriteUInt32 | TilemapPipeline/TiledImporter.cs:192 | `ReadUInt32` reads back the little-endian bytes of any value |
| TileCells.WriteReadUInt32 | TilemapPipeline/TiledImporter.cs:192 | the four bytes `ReadUInt32` reads are the little-endian bytes of its result |
| TileCells.ReadUInt32 | TilemapPipeline/TiledImporter.cs:190-192 | `BinaryReader.ReadUInt32`: the next four bytes, little-endian, at offset 4i; the value it reads is stated by ReadWriteUInt32 and WriteReadUInt32 |
| TileCells.Serialize | TilemapPipeline/TiledImporter.cs:179-192 | a payload of n cells has 4n bytes |
| TileCells.ReadCells | TilemapPipeline/TiledImporter.cs:190-192 | the decode loop reads n cells, cell i from bytes 4i..4i+3 |
| TileCells.ReadSerialized | TilemapPipeline/TiledImporter.cs:190-192 | reading a serialized payload, whatever follows it, gives back its cells |
| TileCells.SerializedAt | TilemapPipeline/TiledImporter.cs:190-192 | in a serialized payload, bytes 4i..4i+3 are the bytes of cell i |
| TiledImporter.Base64Buffer | TilemapPipeline/TiledImporter.cs:179-181 | the buffer holds `size` bytes: the decoded bytes, then zeros |
| TiledImporter.DataSize | TilemapPipeline/TiledImporter.cs:179 | the buffer size is a 32-bit value, exactly 4 * Length + 1024 when that fits; UncompressedReadsInBounds states that it covers every read |
| TiledImporter.CellStream | TilemapPipeline/TiledImporter.cs:179-188 | the bytes the decode loop reads, from the buffer or the gzip stream; DecodedCell and UncompressedDecode state what is read from it |
| TiledImporter.LayerLength | TilemapPipeline/TiledImporter.cs:157-158 | the array length is the 32-bit value congruent to Width * Height mod 2^32, the plain product when it fits; LoadLayerShape states that both arrays have it |
| TiledImporter.ApplyChild | TilemapPipeline/TiledImporter.cs:169-231 | the `data` case of the read loop: no encoding changes nothing, an encoding other than "base64" throws, otherwise the buffer, the optional gzip stream and the decode; its meaning is stated by ApplyChildLengths, NoEncodingLeavesLayer, UnknownEncodingThrows, UncompressedReadsInBounds and DecodedCell |
| TiledImporter.ApplyChildren | TilemapPipeline/TiledImporter.cs:160-244 | the read loop over the subtree in document order, ended by the first exception; its meaning is stated by ApplyChildrenLengths, BadEncodingThrows, EmptyLayerChildren and NoEncodingMeansEmptyCells |
| TiledImporter.LoadLayerSpec | TilemapPipeline/TiledImporter.cs:148-248 | the layer LoadLayer reads; LoadLayer is proved equal to it, and its meaning is stated by LoadLayerShape, AbsentDimensionsGiveEmptyLayer, DecodedCell and SerializedLayerDecodes |
| TiledImporter.ApplyChildLengths | TilemapPipeline/TiledImporter.cs:160-244 | one element of the subtree keeps the arrays parallel and their length, and changes nothing but the arrays |
| TiledImporter.LayerContent.constructor | TilemapPipeline/TiledImporter.cs:150-158 | a new layer has the given name, width, height and opacity and two fresh, distinct arrays of the given length, all zero and all NoEffects |
| TiledImporter.DecodeCells | TilemapPipeline/TiledImporter.cs:190-218 | the loop succeeds iff the stream holds 4 * Length bytes, and then writes every index once, ID i and effect i coming from cell i |
| TiledImporter.LoadLayer | TilemapPipeline/TiledImporter.cs:148-248 | loading throws exactly when the layer specification fails, with the same exception; otherwise it returns fresh arrays whose contents are the specification's layer |
| TiledImporter.ApplyChildrenLengths | TilemapPipeline/TiledImporter.cs:160-244 | the whole subtree keeps the arrays parallel and their length, and changes nothing but the arrays |
| TiledImporter.LoadLayerShape | TilemapPipeline/TiledImporter.cs:153-158 | a loaded layer has both arrays of length `Width * Height` (wrapped to 32 bits), equal to the plain product when it fits, and keeps the name, width, height and opacity; a negative length throws Overflow |
| TiledImporter.AbsentDimensionsGiveEmptyLayer | TilemapPipeline/TiledImporter.cs:153-230 | an absent or unparsable width or height gives a layer with empty arrays; it loads iff no element has an encoding other than "base64", and otherwise throws "Unrecognized encoding." |
| TiledImporter.NoEncodingLeavesLayer | TilemapPipeline/TiledImporter.cs:171-230 | elements other than a `data` element with an `encoding` change nothing |
| TiledImporter.NoEncodingMeansEmptyCells | TilemapPipeline/TiledImporter.cs:171-230 | without an encoded `data` element the layer loads, every cell is 0 and every effect is empty |
| TiledImporter.UnknownEncodingThrows | TilemapPipeline/TiledImporter.cs:175-224 | the first encoded `data` element whose encoding is not "base64" throws "Unrecognized encoding." |
| TiledImporter.BadEncodingThrows | TilemapPipeline/TiledImporter.cs:175-224 | any encoded `data` element whose encoding is not "base64" makes the layer fail: with "Unrecognized encoding." when the elements before it succeed, and otherwise with their exception |
| TiledImporter.EmptyLayerChildren | TilemapPipeline/TiledImporter.cs:171-230 | on empty arrays the subtree succeeds and changes nothing iff no element has an encoding other than "base64", and otherwise throws "Unrecognized encoding." |
| TiledImporter.DecodedCell | TilemapPipeline/TiledImporter.cs:190-217 | after a base64 `data` element, ID i is the cell read from bytes 4i..4i+3 with its flip bits cleared, it lies in [0, 2^29), and effect i holds H iff bit 31 and V iff bit 30 |
| TiledImporter.UncompressedReadsInBounds | TilemapPipeline/TiledImporter.cs:179-192 | without gzip the buffer has 4n + 1024 bytes, so every read stays in bounds and the element never throws |
| TiledImporter.UncompressedDecode | TilemapPipeline/TiledImporter.cs:179-218 | an uncompressed payload is decoded from the zero-padded buffer of 4n + 1024 bytes |
| TiledImporter.SerializedLayerDecodes | TilemapPipeline/TiledImporter.cs:179-218 | an uncompressed payload written from n cells decodes to those cells' IDs and effects |
| TiledImporter.ReadTilesetStep | TilemapPipeline/TiledImporter.cs:118-141 | one element that does not throw: an `image` sets the source, anything else leaves the tileset unchanged |
| TiledImporter.ReadTilesetChildren | TilemapPipeline/TiledImporter.cs:118-141 | the tileset read loop in document order; its meaning is stated by ReadTilesetStep, ReadTilesetSubtree, ReadTilesetChildrenMeaning and LastImageOfTail |
| TiledImporter.LoadTilesetSpec | TilemapPipeline/TiledImporter.cs:101-144 | the tileset LoadTileset reads; LoadTileset is proved equal to it, and its meaning is stated by LoadTilesetMeaning and RequiredAttributeErrors |
| TiledImporter.LoadTileset | TilemapPipeline/TiledImporter.cs:101-144 | the method returns the tileset its specification reads, or the same exception |
| TiledImporter.ReadTilesetSubtree | TilemapPipeline/TiledImporter.cs:118-141 | the read loop applies the subtree's elements in document order |
| TiledImporter.ReadTilesetChildrenMeaning | TilemapPipeline/TiledImporter.cs:118-141 | the subtree reads without error iff every `tile` id parses, and then only the image source changes, to the last `image` source |
| TiledImporter.LastImageOfTail | TilemapPipeline/TiledImporter.cs:127-128 | a later `image` element overrides an earlier one |
| TiledImporter.LoadTilesetMeaning | TilemapPipeline/TiledImporter.cs:101-144 | a tileset loads iff firstgid, tilewidth, tileheight and every tile id parse; margin and spacing are their TryParse values (0 when absent or malformed); the image is the last `image` source; no tile properties are read |
| TiledImporter.RequiredAttributeErrors | TilemapPipeline/TiledImporter.cs:107-109 | the first of firstgid, tilewidth, tileheight that fails to parse decides the exception |
| HeroTilemapProcessor.TileFlag | TilemapPipeline/HeroTilemapProcessor.cs:153-164 | a flag is true iff the tile has a property entry holding the key and its value parses as true; otherwise it is false |
| HeroTilemapProcessor.ProcessTilesets | TilemapPipeline/HeroTilemapProcessor.cs:120-187 | the method's result is the global tile table, or the first tileset's exception |
| HeroTilemapProcessor.ProcessTileset | TilemapPipeline/HeroTilemapProcessor.cs:125-183 | one tileset's pass appends its slots to the list, or throws its exception |
| HeroTilemapProcessor.AtlasStep | TilemapPipeline/HeroTilemapProcessor.cs:125-183 | the table of the first k + 1 tilesets is the table of the first k followed by tileset k's slots, or fails as tileset k does |
| HeroTilemapProcessor.AppendSlots | TilemapPipeline/HeroTilemapProcessor.cs:145-182 | the nested loops append the grid's slots row by row, each with the flags of tile index 1 |
| HeroTilemapProcessor.AtlasFailurePersists | TilemapPipeline/HeroTilemapProcessor.cs:125-132 | once a tileset fails, the whole table fails with its exception |
| HeroTilemapProcessor.SlotGridLength | TilemapPipeline/HeroTilemapProcessor.cs:148-150 | a grid has rows * columns slots |
| HeroTilemapProcessor.SlotGridAt | TilemapPipeline/HeroTilemapProcessor.cs:148-180 | slot (x, y) sits at index y * columns + x |
| HeroTilemapProcessor.TilesetSlotsFailure | TilemapPipeline/HeroTilemapProcessor.cs:141-142 | a tileset fails only when the tile size plus the spacing is 0, with DivideByZero |
| HeroTilemapProcessor.TilesetSlotCount | TilemapPipeline/HeroTilemapProcessor.cs:141-150 | a tileset yields rows * columns slots when both truncated counts are positive and none otherwise; the counts use the map's tile size |
| HeroTilemapProcessor.TileCount | TilemapPipeline/HeroTilemapProcessor.cs:141-142 | with a positive step and extent, the count is the number of whole steps (tile size plus spacing) that fit in the image less two margins; TilesetSlotCount and TilesetSlotsFailure state the other cases |
| HeroTilemapProcessor.TilesetSlots | TilemapPipeline/HeroTilemapProcessor.cs:136-182 | one tileset's slot grid for an image of a given size, or DivideByZero; its meaning is stated by TilesetSlotsFailure, TilesetSlotCount, TilesetSlotAt and TilesetSlotsUniform |
| HeroTilemapProcessor.TilesetAtlas | TilemapPipeline/HeroTilemapProcessor.cs:127-182 | one tileset's slots after building its image, or the build's failure; its meaning is stated by AtlasStep and AtlasOffset |
| HeroTilemapProcessor.AtlasTable | TilemapPipeline/HeroTilemapProcessor.cs:120-187 | the global tile table that ProcessTilesets is proved to return; its meaning is stated by AtlasTableSucceeds, AtlasUnfold, AtlasOffset, AtlasPrefix and AtlasSlotAt |
| HeroTilemapProcessor.TilesetSlotAt | TilemapPipeline/HeroTilemapProcessor.cs:169-180 | slot (x, y) sits at index y * columns + x and has source rectangle (x*(tw+s)+m, y*(th+s)+m, tw, th), the tileset's texture and tile 1's flags, with solid under "soild" |
| HeroTilemapProcessor.TilesetSlotsUniform | TilemapPipeline/HeroTilemapProcessor.cs:145-164 | every slot of a tileset has the same texture and the same solid and liquid flags |
| HeroTilemapProcessor.SlotGridUniform | TilemapPipeline/HeroTilemapProcessor.cs:145-180 | every slot of a grid carries its template's texture and flags |
| HeroTilemapProcessor.AtlasTableSucceeds | TilemapPipeline/HeroTilemapProcessor.cs:125-183 | the table exists iff every tileset's slots do |
| HeroTilemapProcessor.AtlasUnfold | TilemapPipeline/HeroTilemapProcessor.cs:125-183 | an existing table is the table of all but the last tileset, then the last one's slots |
| HeroTilemapProcessor.AtlasOffset | TilemapPipeline/HeroTilemapProcessor.cs:125-180 | slot j of tileset k sits at global index (slots of the tilesets before k) + j |
| HeroTilemapProcessor.AtlasPrefix | TilemapPipeline/HeroTilemapProcessor.cs:125-183 | the table of the first k tilesets is a prefix of the whole table |
| HeroTilemapProcessor.ExampleTileset | TilemapPipeline/HeroTilemapProcessor.cs:141-180 | a 256x256 image cut into 32x32 tiles has 64 slots, slot 0 at (0, 0) and slot 9 at (32, 32) |
| HeroTilemapProcessor.ProcessLayerTiles | TilemapPipeline/HeroTilemapProcessor.cs:203-244 | the nested loops produce one layer's tiles row by row, or its first cell's exception |
| HeroTilemapProcessor.ProcessLayers | TilemapPipeline/HeroTilemapProcessor.cs:189-260 | the method's result is the processed layers in order, or the first failing layer's exception |
| HeroTilemapProcessor.RowStep | TilemapPipeline/HeroTilemapProcessor.cs:205-243 | a cell that resolves is appended to its row |
| HeroTilemapProcessor.RowsStep | TilemapPipeline/HeroTilemapProcessor.cs:203-244 | a complete row is appended to the rows before it |
| HeroTilemapProcessor.CellFailureEndsLayer | TilemapPipeline/HeroTilemapProcessor.cs:203-227 | a failing cell, with all cells before it resolved, ends the layer with that cell's exception |
| HeroTilemapProcessor.RowFailStep | TilemapPipeline/HeroTilemapProcessor.cs:205-227 | a failing cell fails its row |
| HeroTilemapProcessor.RowsFailStep | TilemapPipeline/HeroTilemapProcessor.cs:203-227 | a failing row fails the rows through it |
| HeroTilemapProcessor.RowFailurePersists | TilemapPipeline/HeroTilemapProcessor.cs:205-227 | later cells do not change a row's failure |
| HeroTilemapProcessor.RowsFailurePersists | TilemapPipeline/HeroTilemapProcessor.cs:203-227 | later rows do not change a layer's failure |
| HeroTilemapProcessor.LayersFailurePersists | TilemapPipeline/HeroTilemapProcessor.cs:194-252 | later layers do not change the failure of the list |
| HeroTilemapProcessor.ResolveCellMeaning | TilemapPipeline/HeroTilemapProcessor.cs:208-242 | cell (x, y) reads `TileIndices[y*Width+x]`. ID 0 gives exactly the placeholder. An ID g beyond the table fails with ArgumentOutOfRange, and g > `SpriteEffects.Length` with IndexOutOfRange. Otherwise the cell copies slot g-1's texture, source rectangle and flags, takes `SpriteEffects[g-1]`, and gets the world rectangle (x*tw, y*th, tw, th) |
| HeroTilemapProcessor.ResolveCell | TilemapPipeline/HeroTilemapProcessor.cs:208-242 | the resolution of one cell; its meaning is stated by ResolveCellMeaning |
| HeroTilemapProcessor.ResolveRow | TilemapPipeline/HeroTilemapProcessor.cs:205-243 | one row of a layer, its cells in order; its meaning is stated by ResolveRowMeaning, RowStep and RowFailStep |
| HeroTilemapProcessor.ResolveRows | TilemapPipeline/HeroTilemapProcessor.cs:203-244 | the rows of a layer one after the other, which ProcessLayerTiles is proved to produce; its meaning is stated by ResolveRowsSucceed, ResolveRowsLength, ResolveRowsAt and ResolveRowsFailure |
| HeroTilemapProcessor.ResolveLayer | TilemapPipeline/HeroTilemapProcessor.cs:194-251 | one processed layer; its meaning is stated by LayerShape, LayerTileAt and LayerFailsAtFirstBadCell |
| HeroTilemapProcessor.ResolveLayers | TilemapPipeline/HeroTilemapProcessor.cs:189-260 | the processed layers that ProcessLayers is proved to return; its meaning is stated by ResolveLayersMeaning and LayersFailurePersists |
| HeroTilemapProcessor.ResolveRowMeaning | TilemapPipeline/HeroTilemapProcessor.cs:205-243 | a row exists iff each of its cells does, and is then its cells in order; otherwise it fails as its first failing cell |
| HeroTilemapProcessor.ResolveRowsSucceed | TilemapPipeline/HeroTilemapProcessor.cs:203-244 | the rows exist iff every cell in them resolves |
| HeroTilemapProcessor.ResolveRowsLength | TilemapPipeline/HeroTilemapProcessor.cs:203-244 | m rows hold m * Width tiles |
| HeroTilemapProcessor.ResolveRowsFailure | TilemapPipeline/HeroTilemapProcessor.cs:203-244 | failing rows fail as their first failing row |
| HeroTilemapProcessor.RowOfRows | TilemapPipeline/HeroTilemapProcessor.cs:203-244 | each row of rows that resolve resolves |
| HeroTilemapProcessor.ResolveRowsAt | TilemapPipeline/HeroTilemapProcessor.cs:203-244 | the tiles are row-major: cell (x, y) is tile y * Width + x |
| HeroTilemapProcessor.LayerShape | TilemapPipeline/HeroTilemapProcessor.cs:194-251 | a layer resolves iff every cell does, and then has exactly Width * Height tiles (0 when either is not positive), keeps its opacity and is visible |
| HeroTilemapProcessor.LayerTileAt | TilemapPipeline/HeroTilemapProcessor.cs:203-244 | tile y * Width + x of a processed layer is cell (x, y) resolved |
| HeroTilemapProcessor.ResolveLayersMeaning | TilemapPipeline/HeroTilemapProcessor.cs:194-252 | the list resolves iff every layer does, and then output layer k is input layer k resolved |
| HeroTilemapProcessor.LayerFailsAtFirstBadCell | TilemapPipeline/HeroTilemapProcessor.cs:203-227 | a failing layer fails with the exception of its first failing cell in row-major order |
| HeroTilemapProcessor.BuildEnemies | TilemapPipeline/HeroTilemapProcessor.cs:78-100 | the foreach makes one enemy per enemy object, in order, or throws KeyNotFound at the first without "health" |
| HeroTilemapProcessor.Process | TilemapPipeline/HeroTilemapProcessor.cs:28-107 | the method's result is the tile table, then the layers, then the hero and the enemies, or the first exception among them |
| HeroTilemapProcessor.HeroIsFirstHeroOfSprites | TilemapPipeline/HeroTilemapProcessor.cs:49-70 | the hero is the first "hero" object of the first "sprites" group: it has an "image", stands at the object's (X, Y), and has the texture built from that image |
| HeroTilemapProcessor.EnemiesAreEnemyObjects | TilemapPipeline/HeroTilemapProcessor.cs:73-103 | one enemy per "enemy" object in order, each at its (X, Y) with health 10; every "enemy" object is included and has a "health" key |
| HeroTilemapProcessor.ExtractionFailures | TilemapPipeline/HeroTilemapProcessor.cs:49-89 | no "sprites" group or no "hero" gives NullReference; a hero without "image", or an enemy without "health", gives KeyNotFound |
| HeroTilemapProcessor.SpriteObjects | TilemapPipeline/HeroTilemapProcessor.cs:49 | the objects of the first "sprites" group, or NullReference; ExtractionFailures states the failure |
| HeroTilemapProcessor.HeroOf | TilemapPipeline/HeroTilemapProcessor.cs:53-70 | the hero built from the first "hero" object; HeroIsFirstHeroOfSprites states its meaning |
| HeroTilemapProcessor.EnemiesOf | TilemapPipeline/HeroTilemapProcessor.cs:73-100 | the enemies built from the "enemy" objects; EnemiesAreEnemyObjects states its meaning |
| HeroTilemapProcessor.Spawns | TilemapPipeline/HeroTilemapProcessor.cs:49-103 | the hero and the enemies of the "sprites" group added to the layers; its meaning is stated by HeroIsFirstHeroOfSprites, EnemiesAreEnemyObjects and ExtractionFailures |
| HeroTilemapProcessor.ProcessMap | TilemapPipeline/HeroTilemapProcessor.cs:28-107 | the whole processor, which Process is proved to return; its meaning is stated by SpritesOnlyMap, CellShowsTilesetSlot and ExampleSpawns |
| HeroTilemapProcessor.SpritesOnlyMap | TilemapPipeline/HeroTilemapProcessor.cs:28-107 | a map with only a sprites group yields exactly its hero and enemies |
| HeroTilemapProcessor.ExampleObjects | TilemapPipeline/HeroTilemapProcessor.cs:53-73 | in [hero, enemy, enemy] the enemies are the last two objects, and the hero is placed at (64, 96) with the "hero.png" texture |
| HeroTilemapProcessor.ExampleEnemies | TilemapPipeline/HeroTilemapProcessor.cs:81-100 | two enemies with health "25" get health 10 at their positions |
| HeroTilemapProcessor.ExampleSpawns | TilemapPipeline/HeroTilemapProcessor.cs:49-103 | the full result for a hero at (64, 96) and enemies at (128, 96) and (200, 96): both enemies have health 10 |
| HeroTilemapProcessor.ExampleEnemyWithoutHealth | TilemapPipeline/HeroTilemapProcessor.cs:89 | an enemy without a "health" property makes the processor throw KeyNotFound |
| HeroTilemapProcessor.CellShowsTilesetSlot | TilemapPipeline/HeroTilemapProcessor.cs:148-242 | a cell holding ID 1 + (slots before tileset k) + sy * columns + sx draws tileset k's slot (sx, sy): its texture, rectangle (sx*(tw+s)+m, sy*(th+s)+m, tw, th) and tile 1's flags |
| HeroTilemapProcessor.AtlasSlotAt | TilemapPipeline/HeroTilemapProcessor.cs:148-180 | slot (sx, sy) of tileset k is global entry (slots before k) + sy * columns + sx |
| HeroTilemapProcessor.ResolveTextured | TilemapPipeline/HeroTilemapProcessor.cs:227-242 | a cell whose ID is within the table and the effects array shows that table entry |

## Left out

- The XML reader: `Import`, DTD processing, `ReadSubtree` and the node-type switch are not modelled. A `layer` or `tileset` element arrives with its attribute values extracted (absent is None) and its descendant elements in document order.
- Base64 decoding is not modelled: a `data` element carries the bytes its text decodes to, and its validity is not checked.
- Gzip decompression is the parameter `inflate`, which returns the bytes it produced and whether the stream was corrupt. Its internals are not modelled.
- `float.TryParse` is not modelled: a layer's opacity arrives as the real value it produced. Floating point rounding is not modelled.
- Texture building is the parameter `build`, which gives the first mipmap's size or None when the build throws. `BuildAsset` and `BuildAndLoadAsset` of the same file are taken as one build.
- Logging (`context.Logger.LogMessage`) is left out. Its one effect, the `health` lookup that can throw, is modelled.
- The ExampleGame project, `TiledProcessor` and the data-only content classes are not modelled, apart from the datatype shapes and the defaults `Visible = true` and `Solid`/`Liquid = false`.
- TiledMapContent, the processor's input type, is not part of this model. Its layers are taken as the importer's `LayerContent` values, because the processor reads their `TileIndices` and `SpriteEffects`.
- The C# list and array objects of the processor are modelled as sequences. Their aliasing is not modelled.
- Tile and layer `properties` elements are not modelled: the importer does not read them, and the model's `TileProperties` is always empty after import. `currentTileId` and `FirstTileId` are parsed, but nothing uses them.
- A `null` tile property dictionary is not modelled: `TryGetValue` on a missing key is treated as giving no entry.
- HeroTilemapProcessor.ProcessTilesets: the rectangle and count arithmetic uses unbounded integers. Integer overflow in very large tilesets is not modelled.
- HeroTilemapProcessor.ProcessLayers: the cell index `y * Width + x` and the world rectangles use unbounded integers. 32-bit wrap-around is not modelled.
- NetRuntime.ParseInt32: the sign is the invariant culture's `+` or `-`. Sign symbols of other cultures are not modelled.
