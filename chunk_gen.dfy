/** Deterministic chunk generation and the chunk-update throttle
    (src/infinite-canvas/utils.ts). */
module ChunkGen {
  import opened Common
  import opened Types

  /** Placements generated per chunk (the loop bound of `generateChunkPlanes`). */
  const ItemsPerChunk := 5

  /** What generation takes from outside this file: `hashString` and
      `seededRandom` from the shared utilities, and `CHUNK_SIZE` from the
      constants module. None of them is part of this model, so they are
      carried as values; `Valid` states what is assumed of them. */
  datatype Env = Env(hashString: string -> int, seededRandom: int -> real, chunkSize: real) {
    ghost predicate Valid() {
      && chunkSize > 0.0
      && forall n :: 0.0 <= seededRandom(n) < 1.0
    }
  }

  /** The coordinate string `${cx},${cy},${cz}`: the hash input and the cache key. */
  function CoordKey(c: Coord): (k: string)
    ensures |k| >= 5
  {
    IntToString(c.x) + "," + IntToString(c.y) + "," + IntToString(c.z)
  }

  /** A decimal integer followed by a comma is recovered from the front. */
  lemma IntCommaPrefix(x: int, r: string, y: int, q: string)
    requires IntToString(x) + [','] + r == IntToString(y) + [','] + q
    ensures x == y && r == q
  {
    IntToStringHasNo(x, ',');
    IntToStringHasNo(y, ',');
    SplitAtSeparator(IntToString(x), r, IntToString(y), q, ',');
    IntToStringInjective(x, y);
  }

  /** The coordinate string read as x, comma, and the rest. */
  lemma CoordKeyShape(c: Coord)
    ensures CoordKey(c) == IntToString(c.x) + [','] + (IntToString(c.y) + [','] + IntToString(c.z))
  {
  }

  /** Different chunks have different coordinate strings. */
  lemma CoordKeyInjective(c: Coord, d: Coord)
    ensures CoordKey(c) == CoordKey(d) <==> c == d
  {
    if CoordKey(c) == CoordKey(d) {
      CoordKeyShape(c);
      CoordKeyShape(d);
      IntCommaPrefix(c.x, IntToString(c.y) + [','] + IntToString(c.z),
                     d.x, IntToString(d.y) + [','] + IntToString(d.z));
      IntCommaPrefix(c.y, IntToString(c.z), d.y, IntToString(d.z));
      IntToStringInjective(c.z, d.z);
    }
  }

  /** The placement id `${cx}-${cy}-${cz}-${i}`. */
  function PlaneId(c: Coord, i: int): string {
    IntToString(c.x) + "-" + IntToString(c.y) + "-" + IntToString(c.z) + "-" + IntToString(i)
  }

  /** The chunk's seed: the hash of its coordinate string. */
  function Seed(env: Env, c: Coord): int {
    env.hashString(CoordKey(c))
  }

  /** The sub-seed of placement `i`. */
  function SubSeed(env: Env, c: Coord, i: int): int {
    Seed(env, c) + i * 1000
  }

  /** The draw `r(n) = seededRandom(s + n)` for sub-seed `s`. */
  function Draw(env: Env, s: int, n: int): real {
    env.seededRandom(s + n)
  }

  /** Placement `i` of chunk `c`: size 12 + r(4) * 8, position c * CHUNK_SIZE +
      r(k) * CHUNK_SIZE per axis (draws 0, 1, 2), card index floor(r(5) * 1e6). */
  function PlaneAt(env: Env, c: Coord, i: int): PlaneData {
    var s := SubSeed(env, c, i);
    var size := 12.0 + Draw(env, s, 4) * 8.0;
    PlaneData(
      PlaneId(c, i),
      InChunk(c, env.chunkSize, Draw(env, s, 0), Draw(env, s, 1), Draw(env, s, 2)),
      Vec3(size, size, 1.0),
      (Draw(env, s, 5) * 1000000.0).Floor)
  }

  /** The point c * k + (r0, r1, r2) * k: the chunk's origin corner plus the
      draws scaled to the chunk's edge length. */
  function InChunk(c: Coord, k: real, r0: real, r1: real, r2: real): Vec3 {
    Vec3(Place(c.x, k, r0), Place(c.y, k, r1), Place(c.z, k, r2))
  }

  /** One axis of a placement: a * k + r * k. */
  function Place(a: int, k: real, r: real): real {
    a as real * k + r * k
  }

  /** The placements of chunk `c`, in generation order. */
  function ChunkPlanes(env: Env, c: Coord): seq<PlaneData> {
    seq(ItemsPerChunk, i requires 0 <= i < ItemsPerChunk => PlaneAt(env, c, i))
  }

  /** `generateChunkPlanes`: the loop that pushes the placements one by one. */
  method GenerateChunkPlanes(env: Env, cx: int, cy: int, cz: int) returns (planes: seq<PlaneData>)
    ensures planes == ChunkPlanes(env, Coord(cx, cy, cz))
  {
    var c := Coord(cx, cy, cz);
    planes := [];
    var seed := env.hashString(CoordKey(c));
    for i := 0 to ItemsPerChunk
      invariant |planes| == i
      invariant forall j :: 0 <= j < i ==> planes[j] == PlaneAt(env, c, j)
    {
      var s := seed + i * 1000;
      var size := 12.0 + Draw(env, s, 4) * 8.0;
      var plane := PlaneData(
        PlaneId(c, i),
        InChunk(c, env.chunkSize, Draw(env, s, 0), Draw(env, s, 1), Draw(env, s, 2)),
        Vec3(size, size, 1.0),
        (Draw(env, s, 5) * 1000000.0).Floor);
      planes := planes + [plane];
    }
  }

  /** Exactly five placements, with ids `${cx}-${cy}-${cz}-${i}` for i = 0..4,
      pairwise distinct. */
  lemma ChunkPlanesIds(env: Env, c: Coord)
    ensures |ChunkPlanes(env, c)| == ItemsPerChunk
    ensures forall i :: 0 <= i < ItemsPerChunk ==> ChunkPlanes(env, c)[i].id == PlaneId(c, i)
    ensures forall i, j :: 0 <= i < j < ItemsPerChunk ==> ChunkPlanes(env, c)[i].id != ChunkPlanes(env, c)[j].id
  {
    var prefix := IntToString(c.x) + "-" + IntToString(c.y) + "-" + IntToString(c.z) + "-";
    forall i, j | 0 <= i < j < ItemsPerChunk
      ensures ChunkPlanes(env, c)[i].id != ChunkPlanes(env, c)[j].id
    {
      var a, b := prefix + [DigitChar(i)], prefix + [DigitChar(j)];
      assert ChunkPlanes(env, c)[i].id == a;
      assert ChunkPlanes(env, c)[j].id == b;
      assert a[|a| - 1] == DigitChar(i) != DigitChar(j) == b[|b| - 1];
    }
  }

  lemma ScaledDraw(r: real, k: real)
    requires 0.0 <= r < 1.0 && k > 0.0
    ensures 0.0 <= r * k < k
  {
    MulNonNeg(r, k);
    assert k - r * k == (1.0 - r) * k;
    assert (1.0 - r) * k > 0.0;
  }

  /** One axis of a placement: a * k + r * k lies in [a * k, a * k + k). */
  lemma AxisInChunk(a: int, k: real, r: real)
    requires 0.0 <= r < 1.0 && k > 0.0
    ensures InAxis(a, k, Place(a, k, r))
  {
    ScaledDraw(r, k);
  }

  /** `v` lies in [a * k, a * k + k), the extent of chunk `a` on one axis. */
  ghost predicate InAxis(a: int, k: real, v: real) {
    a as real * k <= v < a as real * k + k
  }

  /** Point `p` lies in the cube of chunk `c` with edge length `k`. */
  ghost predicate InCube(c: Coord, k: real, p: Vec3) {
    InAxis(c.x, k, p.x) && InAxis(c.y, k, p.y) && InAxis(c.z, k, p.z)
  }

  /** Where `p` sits relative to the origin corner of chunk `c`. */
  function Offset(c: Coord, k: real, p: Vec3): Vec3 {
    Vec3(p.x - c.x as real * k, p.y - c.y as real * k, p.z - c.z as real * k)
  }

  lemma InChunkInCube(c: Coord, k: real, r0: real, r1: real, r2: real)
    requires k > 0.0 && 0.0 <= r0 < 1.0 && 0.0 <= r1 < 1.0 && 0.0 <= r2 < 1.0
    ensures InCube(c, k, InChunk(c, k, r0, r1, r2))
  {
    AxisInChunk(c.x, k, r0);
    AxisInChunk(c.y, k, r1);
    AxisInChunk(c.z, k, r2);
  }

  lemma InChunkOffset(c: Coord, k: real, r0: real, r1: real, r2: real)
    ensures Offset(c, k, InChunk(c, k, r0, r1, r2)) == Vec3(r0 * k, r1 * k, r2 * k)
  {
  }

  /** With seededRandom in [0, 1): the position lies in the chunk's cube
      [c * CHUNK_SIZE, (c + 1) * CHUNK_SIZE) on every axis, the size lies in
      [12, 20) with scale (size, size, 1), and the card index is in [0, 1000000). */
  lemma PlaneBounds(env: Env, c: Coord, i: int)
    requires env.Valid()
    ensures var p := PlaneAt(env, c, i);
      && InCube(c, env.chunkSize, p.position)
      && 12.0 <= p.scale.x < 20.0 && p.scale.y == p.scale.x && p.scale.z == 1.0
      && 0 <= p.cardIndex < 1000000
  {
    var s := SubSeed(env, c, i);
    var k := env.chunkSize;
    var r0, r1, r2, r4, r5 := Draw(env, s, 0), Draw(env, s, 1), Draw(env, s, 2), Draw(env, s, 4), Draw(env, s, 5);
    assert PlaneAt(env, c, i).position == InChunk(c, k, r0, r1, r2);
    InChunkInCube(c, k, r0, r1, r2);
    ScaledDraw(r4, 8.0);
    ScaledDraw(r5, 1000000.0);
  }

  /** Every placement of a chunk lies in that chunk and carries a card index in
      [0, 1000000). */
  lemma ChunkPlanesBounds(env: Env, c: Coord)
    requires env.Valid()
    ensures forall p :: p in ChunkPlanes(env, c) ==>
      && InCube(c, env.chunkSize, p.position)
      && 12.0 <= p.scale.x < 20.0
      && 0 <= p.cardIndex < 1000000
  {
    forall i | 0 <= i < ItemsPerChunk {
      PlaneBounds(env, c, i);
    }
  }

  /** The placements depend on the coordinate only through its hash, the
      sub-seeds being seed + i * 1000: two placements whose sub-seeds coincide
      (in the same chunk or in two different ones) have the same size, the same
      card index and the same offset inside their chunks. */
  lemma SubSeedDetermines(env: Env, c: Coord, i: int, d: Coord, j: int)
    requires SubSeed(env, c, i) == SubSeed(env, d, j)
    ensures var p, q := PlaneAt(env, c, i), PlaneAt(env, d, j);
      && p.scale == q.scale
      && p.cardIndex == q.cardIndex
      && Offset(c, env.chunkSize, p.position) == Offset(d, env.chunkSize, q.position)
  {
    var s, k := SubSeed(env, c, i), env.chunkSize;
    var r0, r1, r2 := Draw(env, s, 0), Draw(env, s, 1), Draw(env, s, 2);
    assert PlaneAt(env, c, i).position == InChunk(c, k, r0, r1, r2);
    assert PlaneAt(env, d, j).position == InChunk(d, k, r0, r1, r2);
    InChunkOffset(c, k, r0, r1, r2);
    InChunkOffset(d, k, r0, r1, r2);
  }

  /** `getChunkUpdateThrottleMs`. */
  function ThrottleMs(isZooming: bool, zoomSpeed: real): (ms: int)
    ensures ms in {100, 400, 500}
    ensures zoomSpeed > 1.0 ==> ms == 500
    ensures zoomSpeed <= 1.0 ==> ms == if isZooming then 400 else 100
  {
    if zoomSpeed > 1.0 then 500 else if isZooming then 400 else 100
  }

  /** The throttle never shortens as the zoom gets faster or starts. */
  lemma ThrottleMonotone(z1: bool, s1: real, z2: bool, s2: real)
    requires s1 <= s2 && (z1 ==> z2)
    ensures ThrottleMs(z1, s1) <= ThrottleMs(z2, s2)
  {
  }

  /** `shouldThrottleUpdate(last, ms, now)`: whether the window may be replaced. */
  function ShouldThrottle(lastUpdateTime: real, throttleMs: real, currentTime: real): bool {
    currentTime - lastUpdateTime >= throttleMs
  }

  /** The update is allowed exactly once `now - last >= ms`, and once allowed it
      stays allowed as time goes on: with ms = 400, t0 + 399 is refused and
      t0 + 400 allowed. */
  lemma ShouldThrottleThreshold(last: real, ms: real, now: real, later: real)
    requires now <= later
    ensures ShouldThrottle(last, ms, now) ==> ShouldThrottle(last, ms, later)
    ensures !ShouldThrottle(last, 400.0, last + 399.0)
    ensures ShouldThrottle(last, 400.0, last + 400.0)
    ensures ShouldThrottle(last, ms, last + ms)
    ensures 0.0 < ms ==> !ShouldThrottle(last, ms, last)
  {
  }
}
