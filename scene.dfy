/** The scene-side glue of src/infinite-canvas/scene.tsx that is not camera
    control: the shader-material pool that `CardPlane` draws its gradient
    from, the way `Chunk` picks a card for each generated placement, and the
    guard of `InfiniteCanvasScene` on an empty card list. */
module Scene {
  import opened Common
  import opened Types
  import opened ChunkGen

  /** The number of gradient palettes, which is also the pool's key range. */
  const PaletteCount := 12

  /** The palette a rank selects (`PALETTES[rank % PALETTES.length]`). */
  function PaletteOf(rank: int): (p: int)
    ensures AbsInt(p) < PaletteCount
    ensures rank >= 0 ==> p == rank % PaletteCount
    ensures p < 0 ==> rank < 0
  {
    JsRem(rank, PaletteCount)
  }

  /** A gradient shader material: the palette it paints and the rank its noise
      seed was derived from. `clone()` copies both. */
  class Material {
    const palette: int
    const seedRank: int

    /** `createOrganicGradientMaterial(rank)`, for a rank whose palette
        exists; for any other rank `palette[0]` throws and no material is
        made (see `MaterialPool.Get`). */
    constructor (rank: int)
      requires PaletteOf(rank) >= 0
      ensures palette == PaletteOf(rank) && seedRank == rank
    {
      palette := PaletteOf(rank);
      seedRank := rank;
    }

    /** A material with the given palette and seed, as a clone would be. */
    constructor Copy(palette: int, seedRank: int)
      ensures this.palette == palette && this.seedRank == seedRank
    {
      this.palette := palette;
      this.seedRank := seedRank;
    }

    /** `mat.clone()`: a new material with the same uniforms. */
    method Clone() returns (c: Material)
      ensures fresh(c)
      ensures c.palette == palette && c.seedRank == seedRank
    {
      c := new Material.Copy(palette, seedRank);
    }
  }

  /** The integers 0 .. n-1, one by one. */
  function Below(n: nat): (s: set<int>)
    ensures forall k :: k in s <==> 0 <= k < n
  {
    if n == 0 then {} else Below(n - 1) + {n - 1}
  }

  lemma {:induction false} BelowCard(n: nat)
    ensures |Below(n)| == n
  {
    if n > 0 {
      BelowCard(n - 1);
      var b := Below(n - 1);
      assert n - 1 !in b;
      assert |b + {n - 1}| == |b| + 1;
    }
  }

  lemma SubsetCard(a: set<int>, b: set<int>)
    requires a <= b
    ensures |a| <= |b|
  {
    assert b == a + (b - a);
  }

  /** A set of pool keys drawn from non-negative ranks has at most 12 members. */
  lemma PoolKeysBound(keys: set<int>)
    requires forall k :: k in keys ==> 0 <= k < PaletteCount
    ensures |keys| <= PaletteCount
  {
    BelowCard(PaletteCount);
    SubsetCard(keys, Below(PaletteCount));
  }

  /** The module-level `materialPool`: one material per `rank % 12`. */
  class MaterialPool {
    var pool: map<int, Material>

    /** Every pooled material paints the palette of its key, and every key is
        the index of an existing palette. */
    ghost predicate Valid()
      reads this
    {
      forall k :: k in pool ==> pool[k].palette == k && 0 <= k < PaletteCount
    }

    constructor ()
      ensures Valid() && pool == map[]
    {
      pool := map[];
    }

    /** `getPooledMaterial(rank)`: the material under `rank % 12`, created for
        `rank` on the first request for that key, is cloned. The clone paints
        the rank's own palette, but its noise seed is that of the FIRST rank
        seen for the key. A negative rank with a non-zero remainder has no
        palette: creating its material throws a TypeError, which is `None`,
        and the pool is left as it was. */
    method Get(rank: int) returns (m: Option<Material>)
      requires Valid()
      modifies this
      ensures Valid()
      ensures m.None? <==> PaletteOf(rank) < 0
      ensures m.None? ==> pool == old(pool)
      ensures m.Some? ==> fresh(m.value)
      ensures var key := PaletteOf(rank);
        m.Some? ==>
        && key in pool
        && m.value.palette == PaletteOf(rank)
        && m.value.seedRank == pool[key].seedRank
        && (key in old(pool) ==> pool == old(pool))
        && (key !in old(pool) ==> pool == old(pool)[key := pool[key]] && pool[key].seedRank == rank)
    {
      var key := PaletteOf(rank);
      if key < 0 {
        return None;
      }
      if key !in pool {
        var mat := new Material(rank);
        pool := pool[key := mat];
      }
      var c := pool[key].Clone();
      m := Some(c);
    }

    /** The pool as evidently intended ("each card gets a unique noise
        pattern"): the compiled program is shared through the clone, and the
        seed is the requesting card's own. */
    method GetForRank(rank: int) returns (m: Option<Material>)
      requires Valid()
      modifies this
      ensures Valid()
      ensures m.None? <==> PaletteOf(rank) < 0
      ensures m.None? ==> pool == old(pool)
      ensures m.Some? ==> fresh(m.value)
      ensures m.Some? ==> m.value.palette == PaletteOf(rank) && m.value.seedRank == rank
      ensures m.Some? ==> pool.Keys == old(pool.Keys) + {PaletteOf(rank)}
    {
      var shared := Get(rank);
      if shared.None? {
        return None;
      }
      var c := new Material.Copy(shared.value.palette, rank);
      m := Some(c);
    }

    /** Whatever ranks are requested, the pool never holds more than 12
        materials. */
    lemma SizeBound()
      requires Valid()
      ensures |pool| <= PaletteCount
    {
      PoolKeysBound(pool.Keys);
    }
  }

  /** Two cards whose ranks share a remainder modulo 12 (1 and 13) get the
      same noise seed from `getPooledMaterial`: the second one's seed rank is
      1, not 13. */
  method SharedSeedExample() returns (first: int, second: int)
    ensures first == 1 && second == 1
  {
    var p := new MaterialPool();
    var a := p.Get(1);
    var b := p.Get(13);
    first, second := a.value.seedRank, b.value.seedRank;
  }

  /** A card of rank -1 has no palette (`-1 % 12` is -1): its first request
      throws and the pool stays empty. */
  method NegativeRankThrows() returns (thrown: bool, size: nat)
    ensures thrown && size == 0
  {
    var p := new MaterialPool();
    var m := p.Get(-1);
    thrown, size := m.None?, |p.pool|;
  }

  /** With the intended pool the same two requests keep their own seeds. */
  method OwnSeedExample() returns (first: int, second: int)
    ensures first == 1 && second == 13
  {
    var p := new MaterialPool();
    var a := p.GetForRank(1);
    var b := p.GetForRank(13);
    first, second := a.value.seedRank, b.value.seedRank;
  }

  /** `cards[plane.cardIndex % cards.length]`, with `undefined` (an empty list,
      whose `% 0` is NaN, or a negative remainder) as `None`. */
  function ResolveCard(cards: seq<CardItem>, cardIndex: int): (r: Option<CardItem>)
    ensures r.Some? ==> r.value in cards
    ensures r.Some? <==> |cards| > 0 && (cardIndex >= 0 || JsRem(cardIndex, |cards|) == 0)
    ensures |cards| > 0 && cardIndex >= 0 ==> r == Some(cards[cardIndex % |cards|])
  {
    if |cards| == 0 then None
    else
      var i := JsRem(cardIndex, |cards|);
      if i >= 0 then Some(cards[i]) else None
  }

  /** One mounted `CardPlane`: its React key, position and card. */
  datatype Mount = Mount(key: string, position: Vec3, card: CardItem)

  /** What `Chunk` renders: one `CardPlane` per placement whose card resolves,
      in placement order. */
  function ChunkMounts(cards: seq<CardItem>, planes: seq<PlaneData>): (r: seq<Mount>)
    ensures |r| <= |planes|
    ensures forall m :: m in r ==> m.card in cards
  {
    if |planes| == 0 then []
    else
      var rest := ChunkMounts(cards, planes[1..]);
      match ResolveCard(cards, planes[0].cardIndex)
      case None => rest
      case Some(card) => [Mount(planes[0].id, planes[0].position, card)] + rest
  }

  /** When every index is non-negative and there is at least one card, no
      placement is skipped: mount i is placement i with card
      `cardIndex % |cards|`. */
  lemma {:induction false} ChunkMountsComplete(cards: seq<CardItem>, planes: seq<PlaneData>)
    requires |cards| > 0
    requires forall p :: p in planes ==> p.cardIndex >= 0
    ensures var r := ChunkMounts(cards, planes);
      && |r| == |planes|
      && forall i :: 0 <= i < |r| ==>
           r[i] == Mount(planes[i].id, planes[i].position, cards[planes[i].cardIndex % |cards|])
  {
    if |planes| > 0 {
      assert planes[0] in planes;
      assert forall p :: p in planes[1..] ==> p in planes;
      ChunkMountsComplete(cards, planes[1..]);
    }
  }

  /** With no cards nothing is mounted. */
  lemma {:induction false} ChunkMountsEmpty(planes: seq<PlaneData>)
    ensures ChunkMounts([], planes) == []
  {
    if |planes| > 0 {
      ChunkMountsEmpty(planes[1..]);
    }
  }

  /** Every placement the generator makes for a chunk gets a card once the
      list is non-empty, the React keys of the mounts are pairwise distinct,
      and a single card is shown on all of them. */
  lemma GeneratedChunkMounts(env: Env, c: Coord, cards: seq<CardItem>)
    requires env.Valid() && |cards| > 0
    ensures var planes := ChunkPlanes(env, c);
      var r := ChunkMounts(cards, planes);
      && |r| == |planes|
      && (forall i, j :: 0 <= i < j < |r| ==> r[i].key != r[j].key)
      && (|cards| == 1 ==> forall m :: m in r ==> m.card == cards[0])
  {
    ChunkPlanesBounds(env, c);
    ChunkPlanesIds(env, c);
    ChunkMountsComplete(cards, ChunkPlanes(env, c));
  }

  /** `InfiniteCanvasScene`: nothing is rendered for an empty card list. */
  predicate SceneRenders(cards: seq<CardItem>)
  {
    |cards| > 0
  }

  /** The scene renders exactly when every generated placement can be given a
      card. */
  lemma SceneRendersIff(env: Env, cards: seq<CardItem>)
    requires env.Valid()
    ensures SceneRenders(cards) <==>
      forall c: Coord :: |ChunkMounts(cards, ChunkPlanes(env, c))| == |ChunkPlanes(env, c)|
  {
    if SceneRenders(cards) {
      forall c: Coord ensures |ChunkMounts(cards, ChunkPlanes(env, c))| == |ChunkPlanes(env, c)| {
        GeneratedChunkMounts(env, c, cards);
      }
    } else {
      var c := Coord(0, 0, 0);
      ChunkMountsEmpty(ChunkPlanes(env, c));
    }
  }
}
