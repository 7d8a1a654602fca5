/** The records the canvas passes around (src/infinite-canvas/types.ts). */
module Types {

  /** A three.js `Vector3`, as the exact reals. */
  datatype Vec3 = Vec3(x: real, y: real, z: real)

  /** An integer chunk coordinate (cx, cy, cz). */
  datatype Coord = Coord(x: int, y: int, z: int)

  /** One content card; read-only to the scene. Counts and ranks are integers here. */
  datatype CardItem = CardItem(
    id: string,
    name: string,
    title: string,
    subscribers: int,
    description: string,
    url: string,
    rank: int)

  /** A materialised chunk of the window: its React key and its coordinate. */
  datatype ChunkData = ChunkData(key: string, cx: int, cy: int, cz: int)

  /** One placement generated for a chunk. */
  datatype PlaneData = PlaneData(id: string, position: Vec3, scale: Vec3, cardIndex: int)
}
