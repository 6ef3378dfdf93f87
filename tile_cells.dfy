/** The packed cell format of a Tiled layer's `data` stream and the flip
    flags the importer decodes from it. A cell is an unsigned little-endian
    32-bit value: bits 31, 30 and 29 are the horizontal, vertical and
    diagonal flip flags, bits 0..28 the global tile ID. Unsigned values are
    integers in range; bit k of x is (x / 2^k) % 2, and clearing the bits
    above bit 28 of a 32-bit value leaves x % 2^29. */
module TileCells {

  newtype byte = b: int | 0 <= b < 0x100
  newtype uint32 = x: int | 0 <= x < 0x1_0000_0000

  // ---------------------------------------------------------------------
  // Flip flags

  /** MonoGame's SpriteEffects as a 2-bit set. */
  type SpriteEffects = bv2

  const NoEffects: SpriteEffects := 0
  const FlipHorizontally: SpriteEffects := 1
  const FlipVertically: SpriteEffects := 2

  /** The flip bits of a packed cell: bit 31, bit 30 and bit 29. */
  const FlippedHorizontallyFlag: uint32 := 0x8000_0000
  const FlippedVerticallyFlag: uint32 := 0x4000_0000
  const FlippedDiagonallyFlag: uint32 := 0x2000_0000

  /** `(tileData & flag) != 0` for a one-bit flag. */
  predicate HasFlag(tileData: uint32, flag: uint32)
    requires flag in {FlippedHorizontallyFlag, FlippedVerticallyFlag, FlippedDiagonallyFlag}
  {
    (tileData / flag) % 2 == 1
  }

  /** The effects the decode loop accumulates for one packed cell. The
      diagonal bit contributes `FlipVertically & FlipHorizontally`, the empty set. */
  function CellEffects(tileData: uint32): (effects: SpriteEffects)
    ensures effects & FlipHorizontally != 0 <==> HasFlag(tileData, FlippedHorizontallyFlag)
    ensures effects & FlipVertically != 0 <==> HasFlag(tileData, FlippedVerticallyFlag)
  {
    var e0 := NoEffects;
    var e1 := if HasFlag(tileData, FlippedHorizontallyFlag) then e0 | FlipHorizontally else e0;
    var e2 := if HasFlag(tileData, FlippedVerticallyFlag) then e1 | FlipVertically else e1;
    if HasFlag(tileData, FlippedDiagonallyFlag) then e2 | (FlipVertically & FlipHorizontally) else e2
  }

  /** `tileData & ~(FlippedHorizontallyFlag | FlippedVerticallyFlag | FlippedDiagonallyFlag)`:
      the 32-bit value with bits 31, 30 and 29 cleared. */
  function ClearFlipBits(tileData: uint32): (id: uint32)
    ensures id < FlippedDiagonallyFlag
    ensures (tileData as int - id as int) % 0x2000_0000 == 0
  {
    tileData % 0x2000_0000
  }

  /** The tile ID the decode loop stores: the cell with its flip bits cleared, cast to int. */
  function CellTileId(tileData: uint32): (id: int)
    ensures 0 <= id < 0x2000_0000
  {
    ClearFlipBits(tileData) as int
  }

  function FlagValue(set_: bool, flag: uint32): int { if set_ then flag as int else 0 }

  /** A cell is its tile ID plus its three flip bits: clearing them removes
      exactly bits 31, 30 and 29 and nothing else. */
  lemma CellDecomposes(tileData: uint32)
    ensures tileData as int == CellTileId(tileData)
      + FlagValue(HasFlag(tileData, FlippedHorizontallyFlag), FlippedHorizontallyFlag)
      + FlagValue(HasFlag(tileData, FlippedVerticallyFlag), FlippedVerticallyFlag)
      + FlagValue(HasFlag(tileData, FlippedDiagonallyFlag), FlippedDiagonallyFlag)
  {
    var x := tileData as int;
    var h, r1 := x / 0x8000_0000, x % 0x8000_0000;
    var v, r2 := r1 / 0x4000_0000, r1 % 0x4000_0000;
    var d, r3 := r2 / 0x2000_0000, r2 % 0x2000_0000;
    assert x == 0x8000_0000 * h + r1 && h < 2;
    assert r1 == 0x4000_0000 * v + r2 && v < 2;
    assert r2 == 0x2000_0000 * d + r3 && d < 2;
    assert x / 0x4000_0000 == 2 * h + v;
    assert x / 0x2000_0000 == 4 * h + 2 * v + d;
    assert x % 0x2000_0000 == r3;
  }

  /** The set {H, V} as a SpriteEffects value. */
  function Effects(horizontal: bool, vertical: bool): SpriteEffects
  {
    (if horizontal then FlipHorizontally else NoEffects) | (if vertical then FlipVertically else NoEffects)
  }

  /** A cell as the Tiled editor packs it: the tile ID in bits 0..28 and the
      horizontal, vertical and diagonal flags in bits 31, 30 and 29. */
  function PackCell(id: int, horizontal: bool, vertical: bool, diagonal: bool): uint32
    requires 0 <= id < 0x2000_0000
  {
    (id + FlagValue(horizontal, FlippedHorizontallyFlag) + FlagValue(vertical, FlippedVerticallyFlag)
        + FlagValue(diagonal, FlippedDiagonallyFlag)) as uint32
  }

  /** A SpriteEffects value is determined by its two flags. */
  lemma EffectsOfFlags(e: SpriteEffects, horizontal: bool, vertical: bool)
    requires e & FlipHorizontally != 0 <==> horizontal
    requires e & FlipVertically != 0 <==> vertical
    ensures e == Effects(horizontal, vertical)
  {
  }

  /** Decoding a packed cell gives back its tile ID and its horizontal and
      vertical flags; the diagonal flag is lost. */
  lemma CellRoundTrip(id: int, horizontal: bool, vertical: bool, diagonal: bool)
    requires 0 <= id < 0x2000_0000
    ensures CellTileId(PackCell(id, horizontal, vertical, diagonal)) == id
    ensures CellEffects(PackCell(id, horizontal, vertical, diagonal)) == Effects(horizontal, vertical)
  {
    var x := PackCell(id, horizontal, vertical, diagonal) as int;
    var h, v, d := FlagValue(horizontal, 1), FlagValue(vertical, 1), FlagValue(diagonal, 1);
    assert x == id + 0x8000_0000 * h + 0x4000_0000 * v + 0x2000_0000 * d;
    assert x / 0x8000_0000 == h;
    assert x / 0x4000_0000 == 2 * h + v;
    assert x / 0x2000_0000 == 4 * h + 2 * v + d;
    assert x % 0x2000_0000 == id;
    EffectsOfFlags(CellEffects(x as uint32), horizontal, vertical);
  }

  /** Bit 29 on its own never changes the decoded cell: two cells that differ
      only there get the same SpriteEffects and the same tile ID. */
  lemma DiagonalBitIgnored(tileData: uint32)
    requires !HasFlag(tileData, FlippedDiagonallyFlag)
    ensures var other := (tileData as int + FlippedDiagonallyFlag as int) as uint32;
      && HasFlag(other, FlippedDiagonallyFlag)
      && CellEffects(other) == CellEffects(tileData)
      && CellTileId(other) == CellTileId(tileData)
  {
    var x := tileData as int;
    var y := x + 0x2000_0000;
    assert x / 0x2000_0000 % 2 == 0;
    assert y / 0x2000_0000 == x / 0x2000_0000 + 1;
    assert y / 0x4000_0000 == x / 0x4000_0000;
    assert y / 0x8000_0000 == x / 0x8000_0000;
    assert y % 0x2000_0000 == x % 0x2000_0000;
    var e := CellEffects(tileData);
    EffectsOfFlags(e, e & FlipHorizontally != 0, e & FlipVertically != 0);
    EffectsOfFlags(CellEffects(y as uint32), e & FlipHorizontally != 0, e & FlipVertically != 0);
  }

  // ---------------------------------------------------------------------
  // Little-endian 32-bit values

  /** `BinaryReader.ReadUInt32` at byte offset `offset`: little-endian. */
  function ReadUInt32(s: seq<byte>, offset: nat): uint32
    requires offset + 4 <= |s|
  {
    (s[offset] as int + 0x100 * s[offset + 1] as int + 0x1_0000 * s[offset + 2] as int
      + 0x100_0000 * s[offset + 3] as int) as uint32
  }

  /** `BinaryWriter.Write(uint)`: the four bytes of v, least significant first. */
  function WriteUInt32(v: uint32): (b: seq<byte>)
    ensures |b| == 4
  {
    var x := v as int;
    [(x % 0x100) as byte, (x / 0x100 % 0x100) as byte, (x / 0x1_0000 % 0x100) as byte, (x / 0x100_0000) as byte]
  }

  lemma ReadWriteUInt32(v: uint32)
    ensures ReadUInt32(WriteUInt32(v), 0) == v
  {
    var x := v as int;
    var q1, r0 := x / 0x100, x % 0x100;
    var q2, r1 := q1 / 0x100, q1 % 0x100;
    var q3, r2 := q2 / 0x100, q2 % 0x100;
    assert x == 0x100 * q1 + r0;
    assert q1 == 0x100 * q2 + r1;
    assert q2 == 0x100 * q3 + r2;
    assert x / 0x1_0000 == q2;
    assert x / 0x100_0000 == q3;
  }

  lemma WriteReadUInt32(s: seq<byte>, offset: nat)
    requires offset + 4 <= |s|
    ensures WriteUInt32(ReadUInt32(s, offset)) == s[offset..offset + 4]
  {
    var b0, b1, b2, b3 := s[offset] as int, s[offset + 1] as int, s[offset + 2] as int, s[offset + 3] as int;
    var x := ReadUInt32(s, offset) as int;
    assert x == b0 + 0x100 * (b1 + 0x100 * (b2 + 0x100 * b3));
    assert x % 0x100 == b0 && x / 0x100 == b1 + 0x100 * (b2 + 0x100 * b3);
    assert x / 0x100 % 0x100 == b1;
    assert x / 0x1_0000 == b2 + 0x100 * b3;
    assert x / 0x1_0000 % 0x100 == b2;
    assert x / 0x100_0000 == b3;
  }

  /** The byte stream of a sequence of packed cells, as Tiled writes it before base64. */
  function Serialize(cells: seq<uint32>): (b: seq<byte>)
    ensures |b| == 4 * |cells|
  {
    if cells == [] then [] else Serialize(cells[..|cells| - 1]) + WriteUInt32(cells[|cells| - 1])
  }

  /** The packed cells the decode loop reads: cell i from bytes 4i..4i+3. */
  function ReadCells(stream: seq<byte>, n: nat): (cells: seq<uint32>)
    requires 4 * n <= |stream|
    ensures |cells| == n
  {
    seq(n, i requires 0 <= i < n => ReadUInt32(stream, 4 * i))
  }

  /** Reading back serialized cells, with anything after them, gives the cells. */
  lemma {:induction false} ReadSerialized(cells: seq<uint32>, rest: seq<byte>)
    ensures ReadCells(Serialize(cells) + rest, |cells|) == cells
  {
    var s := Serialize(cells) + rest;
    forall i | 0 <= i < |cells|
      ensures ReadUInt32(s, 4 * i) == cells[i]
    {
      SerializedAt(cells, i);
      assert s[4 * i..4 * i + 4] == Serialize(cells)[4 * i..4 * i + 4];
      ReadWriteUInt32(cells[i]);
      assert ReadUInt32(s, 4 * i) == ReadUInt32(s[4 * i..4 * i + 4], 0);
    }
  }

  lemma {:induction false} SerializedAt(cells: seq<uint32>, i: nat)
    requires i < |cells|
    ensures Serialize(cells)[4 * i..4 * i + 4] == WriteUInt32(cells[i])
    decreases |cells|
  {
    var front := cells[..|cells| - 1];
    assert Serialize(cells) == Serialize(front) + WriteUInt32(cells[|cells| - 1]);
    if i < |cells| - 1 {
      SerializedAt(front, i);
      assert Serialize(cells)[4 * i..4 * i + 4] == Serialize(front)[4 * i..4 * i + 4];
    } else {
      assert |Serialize(front)| == 4 * i;
    }
  }

}
