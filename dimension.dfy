/**
 * The client-side illusion a transfer plays: a change into a placeholder dimension followed
 * by a 3x3 grid of empty chunks around the player's chunk.
 */
module DimensionChange {
  import opened Base
  import opened Protocol

  /** The dimensions the placeholder is searched in, in search order. */
  const Dimensions: seq<int32> := [Overworld, Nether, End]

  /**
   * The placeholder dimension for a transfer from a backend in dimension `from` to one in
   * dimension `to`: the first of Overworld, Nether, End that is neither. Three candidates
   * against two exclusions, so one is always found and it differs from both inputs, whether
   * or not they are themselves among the candidates.
   */
  function ProxyDimension(from: int32, to: int32): (d: int32)
    ensures d in Dimensions
    ensures d != from && d != to
    ensures forall k :: 0 <= k < |Dimensions| && Dimensions[k] < d ==>
              Dimensions[k] == from || Dimensions[k] == to
  {
    if Overworld != from && Overworld != to then Overworld
    else if Nether != from && Nether != to then Nether
    else End
  }

  /** The scan Transfer runs over Dimensions, breaking at the first free one. */
  method ScanDimensions(from: int32, to: int32) returns (proxyDimension: int32)
    ensures proxyDimension == ProxyDimension(from, to)
  {
    proxyDimension := 0;
    var i := 0;
    while i < |Dimensions|
      invariant 0 <= i <= |Dimensions|
      invariant proxyDimension == 0
      invariant forall k :: 0 <= k < i ==> Dimensions[k] == from || Dimensions[k] == to
    {
      var dimension := Dimensions[i];
      if dimension != from && dimension != to {
        proxyDimension := dimension;
        return;
      }
      i := i + 1;
    }
  }

  /** A chunk coordinate whose neighbours one step away still fit in an int32. */
  predicate InChunkRange(c: int32) {
    -0x800_0000 <= c < 0x800_0000
  }

  /**
   * The chunk coordinate of a block coordinate, `x >> 4` on a two's-complement int32: a
   * right shift of a non-negative value, and for a negative one the shift of its complement
   * ^x = -x - 1, complemented back. The result is floor(x / 16), also for negative x.
   */
  function ChunkCoord(x: int32): (c: int32)
    ensures 16 * (c as int) <= x as int < 16 * (c as int) + 16
    ensures InChunkRange(c)
  {
    var n := x as int;
    if n >= 0 then (n / 16) as int32 else (-((-n - 1) / 16) - 1) as int32
  }

  /** The three packets of changeDimension: the change itself, stop all sounds, change done. */
  function ChangeDimensionPackets(dimension: int32, pos: BlockPos): (ps: seq<Packet>)
  {
    [ChangeDimension(dimension, pos), StopSound(true), PlayerAction(PlayerActionDimensionChangeDone)]
  }

  /** The empty chunk at chunk (cx + dx, cz + dz). */
  function EmptyLevelChunk(cx: int32, cz: int32, dx: int, dz: int, dimension: int32): Packet
    requires InChunkRange(cx) && InChunkRange(cz) && -1 <= dx <= 1 && -1 <= dz <= 1
  {
    LevelChunk(ChunkPos((cx as int + dx) as int32, (cz as int + dz) as int32), 1, EmptyChunk(dimension))
  }

  /**
   * The nine LevelChunk packets Transfer writes for the chunk (cx, cz): the outer loop runs
   * dx over -1..1 and the inner loop dz over -1..1, so packet k is at dx = k / 3 - 1 and
   * dz = k % 3 - 1.
   */
  function ChunkGrid(cx: int32, cz: int32, dimension: int32): (g: seq<Packet>)
    requires InChunkRange(cx) && InChunkRange(cz)
  {
    seq(9, k requires 0 <= k < 9 => EmptyLevelChunk(cx, cz, k / 3 - 1, k % 3 - 1, dimension))
  }

  /** Chunk p lies in the 3x3 square centred on chunk (cx, cz). */
  predicate Near(p: ChunkPos, cx: int32, cz: int32) {
    cx as int - 1 <= p.x as int <= cx as int + 1 && cz as int - 1 <= p.z as int <= cz as int + 1
  }

  /** Packet 3 * (dx + 1) + (dz + 1) of the grid is the chunk at (cx + dx, cz + dz). */
  lemma ChunkGridOrder(cx: int32, cz: int32, dimension: int32, dx: int, dz: int)
    requires InChunkRange(cx) && InChunkRange(cz) && -1 <= dx <= 1 && -1 <= dz <= 1
    ensures |ChunkGrid(cx, cz, dimension)| == 9
    ensures ChunkGrid(cx, cz, dimension)[3 * (dx + 1) + (dz + 1)] == EmptyLevelChunk(cx, cz, dx, dz, dimension)
  {
    var k := 3 * (dx + 1) + (dz + 1);
    assert k / 3 == dx + 1 && k % 3 == dz + 1;
  }

  /**
   * The grid consists of exactly nine empty single-sub-chunk LevelChunk packets of the
   * placeholder dimension, at pairwise different positions, and those positions are exactly
   * the chunks of the 3x3 square around (cx, cz).
   */
  lemma ChunkGridNeighbourhood(cx: int32, cz: int32, dimension: int32)
    requires InChunkRange(cx) && InChunkRange(cz)
    ensures var g := ChunkGrid(cx, cz, dimension);
      && |g| == 9
      && (forall k :: 0 <= k < 9 ==>
            && g[k].LevelChunk? && g[k].subChunkCount == 1
            && g[k].rawPayload == EmptyChunk(dimension)
            && Near(g[k].chunkPos, cx, cz))
      && (forall i, j :: 0 <= i < j < 9 ==> g[i].chunkPos != g[j].chunkPos)
      && (forall p :: Near(p, cx, cz) ==> exists k :: 0 <= k < 9 && g[k].chunkPos == p)
  {
    var g := ChunkGrid(cx, cz, dimension);
    forall i, j | 0 <= i < j < 9 ensures g[i].chunkPos != g[j].chunkPos {
      assert i / 3 != j / 3 || i % 3 != j % 3;
    }
    forall p | Near(p, cx, cz) ensures exists k :: 0 <= k < 9 && g[k].chunkPos == p {
      var dx, dz := p.x as int - cx as int, p.z as int - cz as int;
      ChunkGridOrder(cx, cz, dimension, dx, dz);
      assert g[3 * (dx + 1) + (dz + 1)].chunkPos == p;
    }
  }

  /**
   * The packets a successful transfer writes to the client for a player at `pos`: the
   * dimension change into the placeholder, then the grid around the player's chunk.
   */
  function TransferPackets(dimension: int32, pos: BlockPos): (ps: seq<Packet>)
  {
    ChangeDimensionPackets(dimension, pos) + ChunkGrid(ChunkCoord(pos.x), ChunkCoord(pos.z), dimension)
  }

  /**
   * A transfer's packets are ChangeDimension to the placeholder at the player's position,
   * StopSound for all sounds, PlayerAction DimensionChangeDone, then exactly nine LevelChunk
   * packets, at the chunks around (x >> 4, z >> 4).
   */
  lemma TransferPacketsShape(dimension: int32, pos: BlockPos)
    ensures var ps := TransferPackets(dimension, pos);
      && |ps| == 12
      && ps[0] == ChangeDimension(dimension, pos)
      && ps[1] == StopSound(true)
      && ps[2] == PlayerAction(PlayerActionDimensionChangeDone)
      && (forall k :: 3 <= k < 12 <==> 0 <= k < 12 && ps[k].LevelChunk?)
      && (forall k :: 3 <= k < 12 ==>
            Near(ps[k].chunkPos, ChunkCoord(pos.x), ChunkCoord(pos.z))
            && ps[k].rawPayload == EmptyChunk(dimension))
  {
    ChunkGridNeighbourhood(ChunkCoord(pos.x), ChunkCoord(pos.z), dimension);
  }
}
