/** The Tiled (.tmx) importer's tileset and layer readers. The XML reader is
    not modelled: each element arrives with its attribute values already
    extracted (an absent attribute is None) and with the descendant elements
    the reader would visit, in document order. The `data` element carries the
    bytes its base64 text decodes to; gzip decompression is a parameter. */
module TiledImporter {
  import opened NetRuntime
  import opened TileCells

  // ---------------------------------------------------------------------
  // Layers

  /** What the gzip decompressor yields for a buffer: the bytes it produces
      before it stops, and whether it stopped because the stream is corrupt. */
  datatype Inflated = Inflated(bytes: seq<byte>, corrupt: bool)

  /** The gzip decompressor, a collaborator the model does not look into. */
  type Inflater = seq<byte> -> Inflated

  /** An element inside a `layer` element. */
  datatype LayerChild =
    | DataElement(encoding: Option<string>, compression: Option<string>, content: seq<byte>)
    | PropertiesElement
    | OtherLayerElement(name: string)

  /** A `layer` element. `opacity` is the value `float.TryParse` produced (0 when absent). */
  datatype LayerElement = LayerElement(
    name: Option<string>,
    width: Option<string>,
    height: Option<string>,
    opacity: real,
    children: seq<LayerChild>)

  /** The contents of a LayerContent object: the loaded layer as a value. */
  datatype TiledLayer = TiledLayer(
    name: Option<string>,
    width: int,
    height: int,
    opacity: real,
    tileIndices: seq<int>,
    spriteEffects: seq<SpriteEffects>)

  predicate ParallelArrays(layer: TiledLayer)
  {
    |layer.tileIndices| == |layer.spriteEffects|
  }

  /** The length of the arrays: `Width * Height` in 32-bit arithmetic. */
  function LayerLength(width: int, height: int): (n: int)
    ensures IsInt32(n) && (width * height - n) % TwoTo32 == 0
    ensures IsInt32(width * height) ==> n == width * height
  {
    Wrap32(width * height)
  }

  /** The size of the buffer the base64 payload is read into: `Width * Height * 4 + 1024`, in 32-bit arithmetic. */
  function DataSize(length: int): (size: int)
    ensures IsInt32(size)
    ensures 0 <= length && 4 * length + 1024 <= Int32Max ==> size == 4 * length + 1024
  {
    Wrap32(Wrap32(length * 4) + 1024)
  }

  /** The buffer after `ReadElementContentAsBase64(buffer, 0, size)`: the
      first `size` decoded bytes, the rest of the buffer left at zero. */
  function Base64Buffer(content: seq<byte>, size: nat): (buffer: seq<byte>)
    ensures |buffer| == size
    ensures forall i :: 0 <= i < size ==> buffer[i] == if i < |content| then content[i] else 0
  {
    if |content| >= size then content[..size] else content + seq(size - |content|, _ => 0)
  }

  /** The stream the BinaryReader reads: the gzip decompression of the buffer
      when `compression` is "gzip", the buffer itself for any other value. */
  function CellStream(compression: Option<string>, buffer: seq<byte>, inflate: Inflater): Inflated
  {
    if compression == Some("gzip") then inflate(buffer) else Inflated(buffer, false)
  }

  /** The tile IDs of a run of packed cells. */
  function TileIds(cells: seq<uint32>): (ids: seq<int>)
    ensures |ids| == |cells|
    ensures forall i :: 0 <= i < |cells| ==> ids[i] == CellTileId(cells[i])
  {
    seq(|cells|, i requires 0 <= i < |cells| => CellTileId(cells[i]))
  }

  /** The sprite effects of a run of packed cells. */
  function EffectsOf(cells: seq<uint32>): (effects: seq<SpriteEffects>)
    ensures |effects| == |cells|
    ensures forall i :: 0 <= i < |cells| ==> effects[i] == CellEffects(cells[i])
  {
    seq(|cells|, i requires 0 <= i < |cells| => CellEffects(cells[i]))
  }

  /** One element of the layer's subtree applied to the layer read so far. */
  function ApplyChild(layer: TiledLayer, child: LayerChild, inflate: Inflater): (r: Result<TiledLayer>)
    requires ParallelArrays(layer)
  {
    match child
    case DataElement(encoding, compression, content) =>
      if encoding.None? then Success(layer)
      else if encoding.value != "base64" then Failure(UnrecognizedEncoding)
      else
        var n := |layer.tileIndices|;
        var size := DataSize(n);
        if size < 0 then Failure(Overflow)
        else
          var stream := CellStream(compression, Base64Buffer(content, size), inflate);
          if |stream.bytes| < 4 * n then Failure(if stream.corrupt then Zlib else EndOfStream)
          else
            var cells := ReadCells(stream.bytes, n);
            Success(layer.(tileIndices := TileIds(cells), spriteEffects := EffectsOf(cells)))
    case _ => Success(layer)
  }

  /** The elements of the layer's subtree applied in document order; the first exception ends the read. */
  function ApplyChildren(layer: TiledLayer, children: seq<LayerChild>, inflate: Inflater): Result<TiledLayer>
    requires ParallelArrays(layer)
    decreases |children|
  {
    if children == [] then Success(layer)
    else
      var next :- ApplyChild(layer, children[0], inflate);
      ApplyChildLengths(layer, children[0], inflate);
      ApplyChildren(next, children[1..], inflate)
  }

  lemma ApplyChildLengths(layer: TiledLayer, child: LayerChild, inflate: Inflater)
    requires ParallelArrays(layer)
    ensures ApplyChild(layer, child, inflate).Success? ==>
      var next := ApplyChild(layer, child, inflate).value;
      ParallelArrays(next) && |next.tileIndices| == |layer.tileIndices| &&
      next.(tileIndices := layer.tileIndices, spriteEffects := layer.spriteEffects) == layer
  {
  }

  /** The layer as LoadLayer reads it (the specification of LoadLayer). */
  function LoadLayerSpec(elem: LayerElement, inflate: Inflater): Result<TiledLayer>
  {
    var width := TryParseInt32(elem.width);
    var height := TryParseInt32(elem.height);
    var n := LayerLength(width, height);
    if n < 0 then Failure(Overflow)
    else ApplyChildren(TiledLayer(elem.name, width, height, elem.opacity, seq(n, _ => 0), seq(n, _ => NoEffects)),
                       elem.children, inflate)
  }

  /** TiledImporter's LayerContent: the decoded layer, with its two parallel arrays. */
  class LayerContent {
    var name: Option<string>
    var width: int
    var height: int
    var opacity: real
    var tileIndices: array<int>
    var spriteEffects: array<SpriteEffects>

    /** The two arrays are distinct and parallel. */
    predicate Valid()
      reads this
    {
      tileIndices as object != spriteEffects as object && tileIndices.Length == spriteEffects.Length
    }

    constructor (name: Option<string>, width: int, height: int, opacity: real, length: nat)
      ensures Valid()
      ensures this.name == name && this.width == width && this.height == height && this.opacity == opacity
      ensures fresh(tileIndices) && fresh(spriteEffects)
      ensures tileIndices[..] == seq(length, _ => 0) && spriteEffects[..] == seq(length, _ => NoEffects)
    {
      this.name := name;
      this.width := width;
      this.height := height;
      this.opacity := opacity;
      tileIndices := new int[length](_ => 0);
      spriteEffects := new SpriteEffects[length](_ => NoEffects);
    }

    /** The layer's contents as a value. */
    function Snapshot(): (layer: TiledLayer)
      reads this, tileIndices, spriteEffects
      ensures layer.tileIndices == tileIndices[..] && layer.spriteEffects == spriteEffects[..]
    {
      TiledLayer(name, width, height, opacity, tileIndices[..], spriteEffects[..])
    }
  }

  /** The loop of LoadLayer's base64 case: read one packed cell at a time
      from the stream, store its effects and its cleared ID. It stops (false)
      when the stream ends before the last cell. */
  method DecodeCells(layer: LayerContent, stream: Inflated) returns (ok: bool)
    requires layer.Valid()
    modifies layer.tileIndices, layer.spriteEffects
    ensures ok <==> 4 * layer.tileIndices.Length <= |stream.bytes|
    ensures ok ==> var cells := ReadCells(stream.bytes, layer.tileIndices.Length);
      layer.tileIndices[..] == TileIds(cells) && layer.spriteEffects[..] == EffectsOf(cells)
  {
    var length := layer.tileIndices.Length;
    var position := 0;
    var i := 0;
    while i < layer.tileIndices.Length
      invariant 0 <= i <= length && position == 4 * i && 4 * i <= |stream.bytes|
      invariant forall k :: 0 <= k < i ==> layer.tileIndices[k] == CellTileId(ReadUInt32(stream.bytes, 4 * k))
      invariant forall k :: 0 <= k < i ==> layer.spriteEffects[k] == CellEffects(ReadUInt32(stream.bytes, 4 * k))
    {
      if position + 4 > |stream.bytes| {
        return false;
      }
      var tileData := ReadUInt32(stream.bytes, position);
      position := position + 4;
      var spriteEffects := NoEffects;
      if HasFlag(tileData, FlippedHorizontallyFlag) {
        spriteEffects := spriteEffects | FlipHorizontally;
      }
      if HasFlag(tileData, FlippedVerticallyFlag) {
        spriteEffects := spriteEffects | FlipVertically;
      }
      if HasFlag(tileData, FlippedDiagonallyFlag) {
        spriteEffects := spriteEffects | (FlipVertically & FlipHorizontally);
      }
      assert spriteEffects == CellEffects(ReadUInt32(stream.bytes, 4 * i));
      layer.spriteEffects[i] := spriteEffects;
      tileData := ClearFlipBits(tileData);
      assert tileData as int == CellTileId(ReadUInt32(stream.bytes, 4 * i));
      layer.tileIndices[i] := tileData as int;
      i := i + 1;
    }
    ghost var cells := ReadCells(stream.bytes, length);
    assert layer.tileIndices[..] == TileIds(cells);
    assert layer.spriteEffects[..] == EffectsOf(cells);
    return true;
  }

  /** TiledImporter.LoadLayer: allocate the two arrays and fill them from each
      base64 `data` element of the subtree, one packed cell at a time. */
  method LoadLayer(elem: LayerElement, inflate: Inflater) returns (r: Result<LayerContent>)
    ensures r.Failure? <==> LoadLayerSpec(elem, inflate).Failure?
    ensures r.Failure? ==> r.error == LoadLayerSpec(elem, inflate).error
    ensures r.Success? ==> fresh(r.value) && fresh(r.value.tileIndices) && fresh(r.value.spriteEffects)
    ensures r.Success? ==> r.value.Snapshot() == LoadLayerSpec(elem, inflate).value
  {
    var width := TryParseInt32(elem.width);
    var height := TryParseInt32(elem.height);
    var length := LayerLength(width, height);
    if length < 0 {
      return Failure(Overflow);
    }
    var layer := new LayerContent(elem.name, width, height, elem.opacity, length);
    ghost var spec := LoadLayerSpec(elem, inflate);
    assert elem.children[0..] == elem.children;
    var j := 0;
    while j < |elem.children|
      invariant 0 <= j <= |elem.children|
      invariant fresh(layer) && fresh(layer.tileIndices) && fresh(layer.spriteEffects) && layer.Valid()
      invariant layer.name == elem.name && layer.width == width && layer.height == height
      invariant layer.opacity == elem.opacity
      invariant layer.tileIndices.Length == length && layer.spriteEffects.Length == length
      invariant spec == ApplyChildren(layer.Snapshot(), elem.children[j..], inflate)
    {
      var child := elem.children[j];
      ghost var before := layer.Snapshot();
      assert elem.children[j..][0] == child && elem.children[j..][1..] == elem.children[j + 1..];
      if child.DataElement? && child.encoding.Some? {
        if child.encoding.value != "base64" {
          return Failure(UnrecognizedEncoding);
        }
        var dataSize := DataSize(LayerLength(layer.width, layer.height));
        if dataSize < 0 {
          return Failure(Overflow);
        }
        var buffer := Base64Buffer(child.content, dataSize);
        var stream := if child.compression == Some("gzip") then inflate(buffer) else Inflated(buffer, false);
        assert stream == CellStream(child.compression, buffer, inflate);
        var ok := DecodeCells(layer, stream);
        if !ok {
          return Failure(if stream.corrupt then Zlib else EndOfStream);
        }
        assert ApplyChild(before, child, inflate) == Success(layer.Snapshot());
      }
      j := j + 1;
    }
    return Success(layer);
  }

  // ---------------------------------------------------------------------
  // Properties of LoadLayer

  lemma {:induction false} ApplyChildrenLengths(layer: TiledLayer, children: seq<LayerChild>, inflate: Inflater)
    requires ParallelArrays(layer)
    ensures ApplyChildren(layer, children, inflate).Success? ==>
      var last := ApplyChildren(layer, children, inflate).value;
      ParallelArrays(last) && |last.tileIndices| == |layer.tileIndices| &&
      last.(tileIndices := layer.tileIndices, spriteEffects := layer.spriteEffects) == layer
    decreases |children|
  {
    if children != [] {
      ApplyChildLengths(layer, children[0], inflate);
      if ApplyChild(layer, children[0], inflate).Success? {
        ApplyChildrenLengths(ApplyChild(layer, children[0], inflate).value, children[1..], inflate);
      }
    }
  }

  /** A loaded layer has both arrays of length `Width * Height` (in 32-bit
      arithmetic, which is the plain product whenever that fits), and keeps
      the element's name, width, height and opacity; negative lengths throw. */
  lemma LoadLayerShape(elem: LayerElement, inflate: Inflater)
    ensures var width, height := TryParseInt32(elem.width), TryParseInt32(elem.height);
      match LoadLayerSpec(elem, inflate)
      case Success(layer) =>
        && |layer.tileIndices| == |layer.spriteEffects| == LayerLength(width, height) >= 0
        && (0 <= width * height <= Int32Max ==> |layer.tileIndices| == width * height)
        && layer.name == elem.name && layer.width == width && layer.height == height
        && layer.opacity == elem.opacity
      case Failure(e) => LayerLength(width, height) < 0 ==> e == Overflow
  {
    var width, height := TryParseInt32(elem.width), TryParseInt32(elem.height);
    var n := LayerLength(width, height);
    if n >= 0 {
      ApplyChildrenLengths(TiledLayer(elem.name, width, height, elem.opacity, seq(n, _ => 0), seq(n, _ => NoEffects)),
                           elem.children, inflate);
    }
  }

  /** Absent or unparsable width and height read as 0, so the layer has empty
      arrays, and it loads unless some `data` element has an encoding other
      than "base64": an empty layer reads nothing from its payload. */
  lemma AbsentDimensionsGiveEmptyLayer(elem: LayerElement, inflate: Inflater)
    requires ParseInt32(elem.width).Failure? || ParseInt32(elem.height).Failure?
    ensures LoadLayerSpec(elem, inflate).Success? ==>
      LoadLayerSpec(elem, inflate).value.tileIndices == [] && LoadLayerSpec(elem, inflate).value.spriteEffects == []
    ensures LoadLayerSpec(elem, inflate).Success? <==> forall k :: 0 <= k < |elem.children| ==> !BadEncoding(elem.children[k])
    ensures LoadLayerSpec(elem, inflate).Failure? ==> LoadLayerSpec(elem, inflate).error == UnrecognizedEncoding
  {
    var width, height := TryParseInt32(elem.width), TryParseInt32(elem.height);
    assert width == 0 || height == 0;
    assert width * height == 0;
    assert LayerLength(width, height) == 0;
    LoadLayerShape(elem, inflate);
    var empty := TiledLayer(elem.name, width, height, elem.opacity, [], []);
    assert TiledLayer(elem.name, width, height, elem.opacity, seq(0, _ => 0), seq(0, _ => NoEffects)) == empty;
    EmptyLayerChildren(empty, elem.children, inflate);
  }

  /** A `data` element with an encoding other than "base64". */
  predicate BadEncoding(child: LayerChild)
  {
    HasEncoding(child) && child.encoding != Some("base64")
  }

  /** A layer with empty arrays is left as it is by its subtree, unless an element has a bad encoding. */
  lemma {:induction false} EmptyLayerChildren(layer: TiledLayer, children: seq<LayerChild>, inflate: Inflater)
    requires layer.tileIndices == [] && layer.spriteEffects == []
    ensures ApplyChildren(layer, children, inflate) ==
      if forall k :: 0 <= k < |children| ==> !BadEncoding(children[k]) then Success(layer) else Failure(UnrecognizedEncoding)
    decreases |children|
  {
    if children != [] {
      var child := children[0];
      if !BadEncoding(child) && HasEncoding(child) {
        assert DataSize(0) == 1024 by {
          assert Wrap32(0 * 4) == 0;
        }
        assert ApplyChild(layer, child, inflate) == Success(layer);
      }
      EmptyLayerChildren(layer, children[1..], inflate);
      assert forall k :: 1 <= k < |children| ==> children[k] == children[1..][k - 1];
    }
  }

  predicate HasEncoding(child: LayerChild)
  {
    child.DataElement? && child.encoding.Some?
  }

  /** Elements other than a `data` element with an `encoding` attribute change nothing. */
  lemma {:induction false} NoEncodingLeavesLayer(layer: TiledLayer, children: seq<LayerChild>, inflate: Inflater)
    requires ParallelArrays(layer)
    requires forall k :: 0 <= k < |children| ==> !HasEncoding(children[k])
    ensures ApplyChildren(layer, children, inflate) == Success(layer)
    decreases |children|
  {
    if children != [] {
      NoEncodingLeavesLayer(layer, children[1..], inflate);
    }
  }

  /** Without an encoded `data` element every cell is "no tile" with no effects. */
  lemma NoEncodingMeansEmptyCells(elem: LayerElement, inflate: Inflater)
    requires LayerLength(TryParseInt32(elem.width), TryParseInt32(elem.height)) >= 0
    requires forall k :: 0 <= k < |elem.children| ==> !HasEncoding(elem.children[k])
    ensures LoadLayerSpec(elem, inflate).Success?
    ensures var layer := LoadLayerSpec(elem, inflate).value;
      (forall i :: 0 <= i < |layer.tileIndices| ==> layer.tileIndices[i] == 0) &&
      (forall i :: 0 <= i < |layer.spriteEffects| ==> layer.spriteEffects[i] == NoEffects)
  {
    var width, height := TryParseInt32(elem.width), TryParseInt32(elem.height);
    var n := LayerLength(width, height);
    NoEncodingLeavesLayer(TiledLayer(elem.name, width, height, elem.opacity, seq(n, _ => 0), seq(n, _ => NoEffects)),
                          elem.children, inflate);
  }

  /** A `data` element whose encoding is present but not "base64" throws
      "Unrecognized encoding." when it is the first encoded one of the layer. */
  lemma {:induction false} UnknownEncodingThrows(layer: TiledLayer, children: seq<LayerChild>, k: nat, inflate: Inflater)
    requires ParallelArrays(layer)
    requires k < |children| && HasEncoding(children[k]) && children[k].encoding != Some("base64")
    requires forall j :: 0 <= j < k ==> !HasEncoding(children[j])
    ensures ApplyChildren(layer, children, inflate) == Failure(UnrecognizedEncoding)
    decreases k
  {
    if k > 0 {
      UnknownEncodingThrows(layer, children[1..], k - 1, inflate);
    }
  }

  /** A `data` element with a bad encoding always makes the layer throw: with
      "Unrecognized encoding." when every element before it reads without
      error, and otherwise with the first error before it. */
  lemma {:induction false} BadEncodingThrows(layer: TiledLayer, children: seq<LayerChild>, k: nat, inflate: Inflater)
    requires ParallelArrays(layer)
    requires k < |children| && BadEncoding(children[k])
    ensures ApplyChildren(layer, children, inflate).Failure?
    ensures ApplyChildren(layer, children[..k], inflate).Success? ==>
      ApplyChildren(layer, children, inflate) == Failure(UnrecognizedEncoding)
    ensures ApplyChildren(layer, children[..k], inflate).Failure? ==>
      ApplyChildren(layer, children, inflate) == ApplyChildren(layer, children[..k], inflate)
    decreases k
  {
    var first := ApplyChild(layer, children[0], inflate);
    if k == 0 {
      assert children[..0] == [];
    } else {
      assert children[..k][0] == children[0] && children[..k][1..] == children[1..][..k - 1];
      if first.Success? {
        ApplyChildLengths(layer, children[0], inflate);
        BadEncodingThrows(first.value, children[1..], k - 1, inflate);
      }
    }
  }

  /** A base64 `data` element fills cell i from bytes 4i..4i+3 of the stream:
      the stored ID is the cell with its flip bits cleared, the effect holds H
      iff bit 31 is set and V iff bit 30 is set. */
  lemma DecodedCell(layer: TiledLayer, compression: Option<string>, content: seq<byte>, inflate: Inflater, i: nat)
    requires ParallelArrays(layer)
    requires ApplyChild(layer, DataElement(Some("base64"), compression, content), inflate).Success?
    requires i < |layer.tileIndices|
    ensures var n := |layer.tileIndices|;
      var stream := CellStream(compression, Base64Buffer(content, DataSize(n)), inflate).bytes;
      var next := ApplyChild(layer, DataElement(Some("base64"), compression, content), inflate).value;
      var tileData := ReadUInt32(stream, 4 * i);
      && next.tileIndices[i] == CellTileId(tileData)
      && 0 <= next.tileIndices[i] < 0x2000_0000
      && (next.spriteEffects[i] & FlipHorizontally != 0 <==> HasFlag(tileData, FlippedHorizontallyFlag))
      && (next.spriteEffects[i] & FlipVertically != 0 <==> HasFlag(tileData, FlippedVerticallyFlag))
  {
  }

  /** Uncompressed data never runs off the end of its stream, whatever the
      payload: the buffer has 4*n + 1024 bytes and is zero past the payload. */
  lemma UncompressedReadsInBounds(layer: TiledLayer, compression: Option<string>, content: seq<byte>, inflate: Inflater)
    requires ParallelArrays(layer)
    requires compression != Some("gzip")
    requires 4 * |layer.tileIndices| + 1024 <= Int32Max
    ensures var n := |layer.tileIndices|;
      && DataSize(n) == 4 * n + 1024
      && ApplyChild(layer, DataElement(Some("base64"), compression, content), inflate).Success?
      && forall i :: 0 <= i < n ==>
           ApplyChild(layer, DataElement(Some("base64"), compression, content), inflate).value.tileIndices[i]
             == CellTileId(ReadUInt32(Base64Buffer(content, 4 * n + 1024), 4 * i))
  {
  }

  /** An uncompressed payload is decoded from the zero-padded buffer of 4*n + 1024 bytes. */
  lemma UncompressedDecode(layer: TiledLayer, compression: Option<string>, content: seq<byte>, inflate: Inflater)
    requires ParallelArrays(layer)
    requires compression != Some("gzip")
    requires 4 * |layer.tileIndices| + 1024 <= Int32Max
    ensures var n := |layer.tileIndices|;
      var cells := ReadCells(Base64Buffer(content, 4 * n + 1024), n);
      ApplyChild(layer, DataElement(Some("base64"), compression, content), inflate)
        == Success(layer.(tileIndices := TileIds(cells), spriteEffects := EffectsOf(cells)))
  {
    assert DataSize(|layer.tileIndices|) == 4 * |layer.tileIndices| + 1024;
  }

  /** The buffer holding a serialized payload is the payload followed by zeros. */
  lemma SerializedBuffer(cells: seq<uint32>, extra: nat)
    ensures Base64Buffer(Serialize(cells), 4 * |cells| + extra) == Serialize(cells) + seq(extra, _ => 0 as byte)
  {
    var buffer := Base64Buffer(Serialize(cells), 4 * |cells| + extra);
    var padded := Serialize(cells) + seq(extra, _ => 0 as byte);
    assert |buffer| == |padded|;
    forall i | 0 <= i < |buffer|
      ensures buffer[i] == padded[i]
    {
    }
  }

  /** The payload of Tiled's uncompressed base64 encoding decodes to the cells it was written from. */
  lemma SerializedLayerDecodes(layer: TiledLayer, compression: Option<string>, cells: seq<uint32>, inflate: Inflater)
    requires ParallelArrays(layer) && |cells| == |layer.tileIndices|
    requires compression != Some("gzip")
    requires 4 * |cells| + 1024 <= Int32Max
    ensures ApplyChild(layer, DataElement(Some("base64"), compression, Serialize(cells)), inflate).Success?
    ensures var next := ApplyChild(layer, DataElement(Some("base64"), compression, Serialize(cells)), inflate).value;
      forall i :: 0 <= i < |cells| ==>
        next.tileIndices[i] == CellTileId(cells[i]) && next.spriteEffects[i] == CellEffects(cells[i])
  {
    UncompressedDecode(layer, compression, Serialize(cells), inflate);
    SerializedBuffer(cells, 1024);
    ReadSerialized(cells, seq(1024, _ => 0 as byte));
  }

  // ---------------------------------------------------------------------
  // Tilesets

  /** An element inside a `tileset` element. */
  datatype TilesetChild =
    | ImageElement(source: Option<string>)
    | TileElement(id: Option<string>)
    | PropertyElement
    | OtherTilesetElement(name: string)

  /** A `tileset` element. */
  datatype TilesetElement = TilesetElement(
    name: Option<string>,
    firstGid: Option<string>,
    tileWidth: Option<string>,
    tileHeight: Option<string>,
    margin: Option<string>,
    spacing: Option<string>,
    children: seq<TilesetChild>)

  /** TilesetContent: the tileset as the importer hands it on. */
  datatype TilesetContent = TilesetContent(
    name: Option<string>,
    firstTileId: int,
    tileWidth: int,
    tileHeight: int,
    margin: int,
    spacing: int,
    imageFilename: Option<string>,
    tileProperties: map<int, map<string, string>>)

  /** The `source` of the last `image` element among children, or initial when there is none. */
  function LastImageSource(children: seq<TilesetChild>, initial: Option<string>): Option<string>
    decreases |children|
  {
    if children == [] then initial
    else if children[|children| - 1].ImageElement? then children[|children| - 1].source
    else LastImageSource(children[..|children| - 1], initial)
  }

  predicate TileIdsParse(children: seq<TilesetChild>)
  {
    forall k :: 0 <= k < |children| && children[k].TileElement? ==> ParseInt32(children[k].id).Success?
  }

  /** The elements of the tileset's subtree applied in document order. */
  function ReadTilesetChildren(tileset: TilesetContent, children: seq<TilesetChild>): Result<TilesetContent>
    decreases |children|
  {
    if children == [] then Success(tileset)
    else match children[0]
      case ImageElement(source) => ReadTilesetChildren(tileset.(imageFilename := source), children[1..])
      case TileElement(id) =>
        var currentTileId :- ParseInt32(id);
        ReadTilesetChildren(tileset, children[1..])
      case _ => ReadTilesetChildren(tileset, children[1..])
  }

  /** Reading one element that does not throw: an image sets the source, anything else leaves the tileset. */
  lemma ReadTilesetStep(tileset: TilesetContent, children: seq<TilesetChild>)
    requires children != []
    requires children[0].TileElement? ==> ParseInt32(children[0].id).Success?
    ensures ReadTilesetChildren(tileset, children)
            == ReadTilesetChildren(if children[0].ImageElement? then tileset.(imageFilename := children[0].source) else tileset,
                                   children[1..])
  {
  }

  /** The tileset as LoadTileset reads it (the specification of LoadTileset). */
  function LoadTilesetSpec(elem: TilesetElement): Result<TilesetContent>
  {
    var firstTileId :- ParseInt32(elem.firstGid);
    var tileWidth :- ParseInt32(elem.tileWidth);
    var tileHeight :- ParseInt32(elem.tileHeight);
    ReadTilesetChildren(
      TilesetContent(elem.name, firstTileId, tileWidth, tileHeight,
                     TryParseInt32(elem.margin), TryParseInt32(elem.spacing), None, map[]),
      elem.children)
  }

  /** TiledImporter.LoadTileset: parse the required attributes, default the
      optional ones, then walk the subtree for the image source and tile IDs. */
  method LoadTileset(elem: TilesetElement) returns (r: Result<TilesetContent>)
    ensures r == LoadTilesetSpec(elem)
  {
    var firstTileId := ParseInt32(elem.firstGid);
    if firstTileId.Failure? {
      return Failure(firstTileId.error);
    }
    var tileWidth := ParseInt32(elem.tileWidth);
    if tileWidth.Failure? {
      return Failure(tileWidth.error);
    }
    var tileHeight := ParseInt32(elem.tileHeight);
    if tileHeight.Failure? {
      return Failure(tileHeight.error);
    }
    var tileset := TilesetContent(elem.name, firstTileId.value, tileWidth.value, tileHeight.value,
                                  TryParseInt32(elem.margin), TryParseInt32(elem.spacing), None, map[]);
    r := ReadTilesetSubtree(tileset, elem.children);
  }

  /** The read loop of LoadTileset over the elements of the `tileset` subtree. */
  method ReadTilesetSubtree(tileset: TilesetContent, children: seq<TilesetChild>) returns (r: Result<TilesetContent>)
    ensures r == ReadTilesetChildren(tileset, children)
  {
    ghost var spec := ReadTilesetChildren(tileset, children);
    var current := tileset;
    var currentTileId := -1;
    var j := 0;
    while j < |children|
      invariant 0 <= j <= |children|
      invariant spec == ReadTilesetChildren(current, children[j..])
    {
      ghost var rest := children[j..];
      ghost var before := current;
      assert rest[0] == children[j] && rest[1..] == children[j + 1..];
      match children[j] {
        case ImageElement(source) =>
          current := current.(imageFilename := source);
        case TileElement(id) =>
          var parsed := ParseInt32(id);
          if parsed.Failure? {
            assert spec == Failure(parsed.error);
            return Failure(parsed.error);
          }
          currentTileId := parsed.value;
        case _ =>
      }
      ReadTilesetStep(before, rest);
      j := j + 1;
    }
    assert children[j..] == [];
    return Success(current);
  }

  lemma {:induction false} ReadTilesetChildrenMeaning(tileset: TilesetContent, children: seq<TilesetChild>)
    ensures ReadTilesetChildren(tileset, children).Success? <==> TileIdsParse(children)
    ensures ReadTilesetChildren(tileset, children).Success? ==>
      ReadTilesetChildren(tileset, children).value ==
        tileset.(imageFilename := LastImageSource(children, tileset.imageFilename))
    decreases |children|
  {
    if children != [] {
      var next := if children[0].ImageElement? then tileset.(imageFilename := children[0].source) else tileset;
      ReadTilesetChildrenMeaning(next, children[1..]);
      assert TileIdsParse(children) <==>
        (children[0].TileElement? ==> ParseInt32(children[0].id).Success?) && TileIdsParse(children[1..]) by {
        if TileIdsParse(children[1..]) && (children[0].TileElement? ==> ParseInt32(children[0].id).Success?) {
          forall k | 0 <= k < |children| && children[k].TileElement?
            ensures ParseInt32(children[k].id).Success?
          {
            if k > 0 { assert children[k] == children[1..][k - 1]; }
          }
        }
      }
      LastImageOfTail(children, tileset.imageFilename);
    }
  }

  /** LastImageSource read from the front: the first element only matters when no later image follows. */
  lemma {:induction false} LastImageOfTail(children: seq<TilesetChild>, initial: Option<string>)
    requires children != []
    ensures LastImageSource(children, initial) ==
      LastImageSource(children[1..], if children[0].ImageElement? then children[0].source else initial)
    decreases |children|
  {
    if |children| > 1 {
      var front := children[..|children| - 1];
      assert front[1..] == children[1..][..|children[1..]| - 1];
      assert front[0] == children[0];
      LastImageOfTail(front, initial);
    } else {
      assert children[1..] == [];
    }
  }

  /** A tileset loads iff firstgid, tilewidth, tileheight and every tile id
      parse; then margin and spacing are their TryParse values (0 when absent
      or unparsable), the image is the last `image` source, and no tile
      properties are read. */
  lemma LoadTilesetMeaning(elem: TilesetElement)
    ensures LoadTilesetSpec(elem).Success? <==>
      ParseInt32(elem.firstGid).Success? && ParseInt32(elem.tileWidth).Success? &&
      ParseInt32(elem.tileHeight).Success? && TileIdsParse(elem.children)
    ensures LoadTilesetSpec(elem).Success? ==>
      var t := LoadTilesetSpec(elem).value;
      && t.name == elem.name
      && t.firstTileId == ParseInt32(elem.firstGid).value
      && t.tileWidth == ParseInt32(elem.tileWidth).value
      && t.tileHeight == ParseInt32(elem.tileHeight).value
      && t.margin == TryParseInt32(elem.margin) && t.spacing == TryParseInt32(elem.spacing)
      && (ParseInt32(elem.margin).Failure? ==> t.margin == 0)
      && (ParseInt32(elem.spacing).Failure? ==> t.spacing == 0)
      && t.imageFilename == LastImageSource(elem.children, None)
      && t.tileProperties == map[]
  {
    if ParseInt32(elem.firstGid).Success? && ParseInt32(elem.tileWidth).Success? && ParseInt32(elem.tileHeight).Success? {
      ReadTilesetChildrenMeaning(
        TilesetContent(elem.name, ParseInt32(elem.firstGid).value, ParseInt32(elem.tileWidth).value,
                       ParseInt32(elem.tileHeight).value, TryParseInt32(elem.margin), TryParseInt32(elem.spacing),
                       None, map[]),
        elem.children);
    }
  }

  /** A required attribute that is absent or malformed makes LoadTileset throw that attribute's exception. */
  lemma RequiredAttributeErrors(elem: TilesetElement)
    ensures ParseInt32(elem.firstGid).Failure? ==> LoadTilesetSpec(elem) == Failure(ParseInt32(elem.firstGid).error)
    ensures ParseInt32(elem.firstGid).Success? && ParseInt32(elem.tileWidth).Failure? ==>
      LoadTilesetSpec(elem) == Failure(ParseInt32(elem.tileWidth).error)
    ensures (ParseInt32(elem.firstGid).Success? && ParseInt32(elem.tileWidth).Success? &&
             ParseInt32(elem.tileHeight).Failure?) ==>
      LoadTilesetSpec(elem) == Failure(ParseInt32(elem.tileHeight).error)
  {
  }
}
