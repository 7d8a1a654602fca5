# Infinite canvas core, in Dafny

This project models the logic of an infinite, streaming 3D canvas of subreddit
cards. The canvas is a React and three.js app. Space is cut into cubic chunks,
and each chunk deterministically holds five card placements. A small LRU cache
keeps the 256 most recently used chunks' placements. Each card has a label
texture, cached FIFO up to 512 entries, with the evicted texture disposed.
Every card fades in and out with its distance to the camera. A camera
controller turns keys, drags, wheel and touch gestures into velocity and
position. It tracks the chunk the camera is in and, throttled, replaces the
window of chunks that is mounted.

The modules follow the source files:

- `Common` (common.dfy): the numeric helpers the canvas imports (`lerp`,
  `clamp`), JavaScript's `%`, decimal number formatting, and facts about key
  lists.
- `Types` (types.dfy): `CardItem`, `ChunkData`, `PlaneData`.
- `ChunkGen` (chunk_gen.dfy) and `ChunkCache` (chunk_cache.dfy):
  src/infinite-canvas/utils.ts. Chunk generation is a loop proved equal to a
  specification function, and the plane cache is a class over a key order and
  a map.
- `CardTexture` (texture.dfy): src/infinite-canvas/card-texture.ts. This
  covers the label text (truncation, subscriber suffix, the two-line word wrap
  loop) and the texture cache class.
- `CardFade` (fade.dfy): the per-frame fade of a `CardPlane` in
  src/infinite-canvas/scene.tsx.
- `Controller` (controller.dfy): `ControllerState`, the input handlers and the
  per-frame tick of `SceneController`. It is a class whose methods follow the
  handlers, proved against a function `TickState` for the tick, with
  multi-tick lemmas over that function.
- `Scene` (scene.dfy): the shader-material pool, the way `Chunk` picks a card
  for each placement, and the empty-list guard of `InfiniteCanvasScene`.

Outside code is carried as values:

- `hashString` and `seededRandom` are function-typed fields of
  `ChunkGen.Env`. Its `Valid()` states what the model assumes of them:
  `seededRandom` lies in [0, 1) and `CHUNK_SIZE > 0`.
- `lerp` and `clamp` are taken to be `a + (b - a) * t` and
  `min(max(v, lo), hi)`.
- The constants module is not part of this model. The constants it exports
  are fields of `ControllerConfig`, `FadeConfig` and `Env`, each with the
  conditions the proofs need (`0 <= VELOCITY_DECAY <= 1`, and so on).
- The text width `measureText` is a function `string -> real`.
- Whether `getContext("2d")` succeeds is a boolean parameter.
- `performance.now()` is a parameter `now`.

Numbers are Dafny `real`s, and `Math.floor` is `.Floor`.

## Model

| member | source | states |
|---|---|---|
| Common.Lerp | src/infinite-canvas/scene.tsx:491-493 | with t in [0, 1] the result lies between a and b; t = 0 gives a and t = 1 gives b |
| Common.Clamp | src/infinite-canvas/scene.tsx:487-489 | with lo <= hi the result lies in [lo, hi], and a value already in range is unchanged |
| Common.JsRem | src/infinite-canvas/scene.tsx:72 | JavaScript `%`: the remainder is smaller than the divisor in magnitude; for a non-negative dividend it is the mathematical remainder; a non-zero remainder has the dividend's sign |
| Common.IntToString | src/infinite-canvas/utils.ts:75 | `${n}`: a leading '-' exactly for negative n, decimal digits otherwise |
| Common.IntToStringInjective | src/infinite-canvas/utils.ts:75 | two integers with the same decimal text are equal |
| Common.Remove | src/infinite-canvas/utils.ts:15 | deleting a key from the key order: exactly that key is gone, every other key stays, and an absent key changes nothing |
| Common.RemoveDistinct | src/infinite-canvas/utils.ts:15 | deleting from a duplicate-free order keeps it duplicate-free and shortens it by one when the key was there |
| Common.RemoveKeepsOrder | src/infinite-canvas/utils.ts:15-16 | the keys that remain after a delete keep their relative order (an increasing embedding into the old order) |
| ChunkGen.CoordKeyInjective | src/infinite-canvas/utils.ts:75 | two chunks have the same coordinate string `${cx},${cy},${cz}` exactly when they are the same chunk |
| ChunkGen.GenerateChunkPlanes | src/infinite-canvas/utils.ts:49-72 | the push loop returns exactly the specification `ChunkPlanes`: placement i built from sub-seed hash + i * 1000 |
| ChunkGen.ChunkPlanesIds | src/infinite-canvas/utils.ts:54-60 | a chunk has exactly 5 placements, placement i has id `${cx}-${cy}-${cz}-${i}`, and the ids are pairwise distinct |
| ChunkGen.PlaneBounds | src/infinite-canvas/utils.ts:55-67 | with seededRandom in [0, 1): the position lies in [c * CHUNK_SIZE, (c + 1) * CHUNK_SIZE) on every axis, the size lies in [12, 20) with scale (size, size, 1), and cardIndex lies in [0, 1000000) |
| ChunkGen.ChunkPlanesBounds | src/infinite-canvas/utils.ts:54-67 | every placement of a chunk lies in that chunk, has a size in [12, 20) and a card index in [0, 1000000) |
| ChunkGen.InChunkInCube | src/infinite-canvas/utils.ts:61-65 | a position c * k + r * k with every r in [0, 1) lies in the cube of chunk c |
| ChunkGen.SubSeedDetermines | src/infinite-canvas/utils.ts:51-56 | placements depend on the coordinate only through the seed: equal sub-seeds give equal scale, equal card index and equal offset inside the chunk |
| ChunkGen.ThrottleMs | src/infinite-canvas/utils.ts:27-37 | 500 whenever zoomSpeed > 1, whatever isZooming is; otherwise 400 when zooming and 100 when not; always one of 100, 400 and 500 |
| ChunkGen.ThrottleMonotone | src/infinite-canvas/utils.ts:27-37 | a faster zoom, or starting to zoom, never shortens the throttle |
| ChunkGen.ShouldThrottleThreshold | src/infinite-canvas/utils.ts:88-90 | the update is allowed once now - last >= ms and stays allowed later; (t0, 400, t0 + 399) is refused and (t0, 400, t0 + 400) allowed |
| ChunkCache.Newest | src/infinite-canvas/utils.ts:19-25 | the cap most recent keys: a suffix of the order of length min(size, cap) |
| ChunkCache.DropOldestSuffix | src/infinite-canvas/utils.ts:19-25 | eviction only removes the oldest keys (it leaves a suffix), and it ends within the bound unless it stopped at a "" key |
| ChunkCache.DropOldestNewest | src/infinite-canvas/utils.ts:20-23 | with no "" key, eviction keeps exactly the 256 newest keys |
| ChunkCache.PromoteFacts | src/infinite-canvas/utils.ts:9-17 | a hit moves its key to the most recent position and keeps the same keys, the same size and no duplicates |
| ChunkCache.MissFacts | src/infinite-canvas/utils.ts:82-84 | a miss on a cache within its bound makes the new key the most recent; the cache stays within 256 and duplicate-free; what is dropped is a prefix of the old order (at most the one least recently used key) |
| ChunkCache.PromoteKeepsInv | src/infinite-canvas/utils.ts:15-16 | deleting and re-setting a key with its own value leaves the map as it was, and the cache invariant holds for the promoted order |
| ChunkCache.MissKeepsInv | src/infinite-canvas/utils.ts:82-84 | after a miss and its eviction, the order is the 256 newest keys (cache keys are never "", so the early stop never fires) and the cache invariant holds |
| ChunkCache.PlaneCache.constructor | src/infinite-canvas/utils.ts:7 | the cache starts empty and valid |
| ChunkCache.PlaneCache.Touch | src/infinite-canvas/utils.ts:9-17 | a present key is moved to the end of the order with its entry unchanged; an absent key changes nothing; the invariant holds |
| ChunkCache.PlaneCache.Evict | src/infinite-canvas/utils.ts:19-25 | the eviction loop leaves the order `DropOldest(order, 256)` and the entries restricted to it, keeping the key order duplicate-free and matching the map |
| ChunkCache.PlaneCache.GetOrGenerate | src/infinite-canvas/utils.ts:74-86 | hit or miss, the result is what `generateChunkPlanes` computes for the coordinate; a hit promotes the key and changes no entry; a miss appends the key and keeps the 256 newest |
| CardTexture.FormatSubscribers | src/infinite-canvas/card-texture.ts:8-12 | the "M" branch exactly when n >= 1000000, "K" exactly when 1000 <= n < 1000000, plain `${n}` otherwise, with the printed value being n scaled by the branch's unit |
| CardTexture.Truncate | src/infinite-canvas/card-texture.ts:14-17 | "" for empty text; text of length <= maxLen unchanged; otherwise the first maxLen characters then "...", length maxLen + 3 |
| CardTexture.TruncatePrefix | src/infinite-canvas/card-texture.ts:14-17 | truncation never empties a non-empty text and always keeps a prefix of it |
| CardTexture.Split | src/infinite-canvas/card-texture.ts:110 | `split(" ")` gives at least one piece, and no piece contains a space |
| CardTexture.JoinSplit | src/infinite-canvas/card-texture.ts:110 | joining the pieces with single spaces gives the text back |
| CardTexture.WrapFromLines | src/infinite-canvas/card-texture.ts:119-139 | from any loop state the wrap draws one or two lines, one line height apart from the first baseline |
| CardTexture.WrapFromText | src/infinite-canvas/card-texture.ts:119-139 | the drawn lines hold, run together, the first m words in order, each followed by a space, and "..." is never drawn; words are dropped only when two lines were drawn |
| CardTexture.WrapKeepsWords | src/infinite-canvas/card-texture.ts:110-139 | the same for a whole description: the text drawn is its first words in order, cut short only at the second line |
| CardTexture.WrapDescription | src/infinite-canvas/card-texture.ts:110-139 | the word loop, with its early break and closing line, draws exactly the lines of the specification `Wrap` |
| CardTexture.LabelDescription | src/infinite-canvas/card-texture.ts:104-139 | description lines are drawn exactly when the card has a description, and there are at most two |
| CardTexture.Admit | src/infinite-canvas/card-texture.ts:146-154 | as intended, the key order after a miss: the new key is newest and the keys before it are the newest keys of the old order; a full cache loses exactly one key and a cache below 512 none, so a cache within 512 stays within it |
| CardTexture.Evicted | src/infinite-canvas/card-texture.ts:147-151 | as intended, what a miss evicts: at most one key of the cache, and a key exactly when the cache is full; for a full duplicate-free cache it is the one key that does not survive the shift of the order |
| CardTexture.AdmitFacts | src/infinite-canvas/card-texture.ts:146-154 | after a miss the cache is within 512, duplicate-free, with the new key newest; the only key lost is the oldest one, and only when the cache was full |
| CardTexture.EmptyIdStallsEviction | src/infinite-canvas/card-texture.ts:147-154 | as written, once a full cache's oldest id is "", every later miss grows the cache by one |
| CardTexture.EmptyIdOverflow | src/infinite-canvas/card-texture.ts:147-154 | as written, a full cache whose oldest id is "" holds 513 entries after one miss |
| CardTexture.Texture.constructor | src/infinite-canvas/card-texture.ts:143 | a new texture carries its label and is not disposed |
| CardTexture.Texture.Dispose | src/infinite-canvas/card-texture.ts:150 | the texture is disposed |
| CardTexture.TextureCache.constructor | src/infinite-canvas/card-texture.ts:5 | the cache starts empty and valid |
| CardTexture.TextureCache.EvictOldest | src/infinite-canvas/card-texture.ts:148-151 | as intended (without the `if (firstKey)` test), the oldest texture is disposed and its key deleted, keeping the invariant (at most 512, distinct keys, live unshared textures drawn for their own ids) |
| CardTexture.TextureCache.Insert | src/infinite-canvas/card-texture.ts:154 | `set` of a new key appends it to the insertion order and keeps the invariant |
| CardTexture.TextureCache.Synthesize | src/infinite-canvas/card-texture.ts:70-140 | the label drawn is the specification `LabelOf`: rank badge, "r/" title, subscriber text and the wrapped description |
| CardTexture.TextureCache.MakeRoom | src/infinite-canvas/card-texture.ts:146-153 | as intended, a full cache disposes and deletes exactly its oldest entry; afterwards there is room for one more |
| CardTexture.TextureCache.Store | src/infinite-canvas/card-texture.ts:142-156 | with the intended eviction, a miss caches a fresh texture of the card's label under card.id; the order is `Admit`; only the evicted oldest entry is lost, and it is disposed |
| CardTexture.TextureCache.Render | src/infinite-canvas/card-texture.ts:31-157 | a hit returns the stored texture and changes nothing; with no 2D context a fresh blank texture is returned and the cache is untouched; otherwise the miss is stored as above, with the intended eviction; the key is card.id alone and the extra argument is ignored |
| CardFade.ChebyshevDistance | src/infinite-canvas/scene.tsx:138 | the chunk distance is the largest of the three per-axis distances |
| CardFade.GridFade | src/infinite-canvas/scene.tsx:149-150 | in [0, 1]; exactly 1 within RENDER_DISTANCE and below 1 beyond it |
| CardFade.GridFadeMonotone | src/infinite-canvas/scene.tsx:149-150 | the grid fade does not increase with the chunk distance |
| CardFade.DepthFade | src/infinite-canvas/scene.tsx:152-155 | in [0, 1]; exactly 1 up to DEPTH_FADE_START and below 1 past it |
| CardFade.DepthFadeMonotone | src/infinite-canvas/scene.tsx:152-155 | the depth fade does not increase with the depth distance |
| CardFade.FadeTarget | src/infinite-canvas/scene.tsx:157 | the target is in [0, 1], at most the grid fade and at most the squared depth fade, and 1 for a card in range and near the camera |
| CardFade.Smooth | src/infinite-canvas/scene.tsx:159 | snaps to 0 exactly when both opacity and target are below INVIS_THRESHOLD, otherwise moves 35% toward the target, and stays in [0, 1] |
| CardFade.SmoothApproaches | src/infinite-canvas/scene.tsx:159 | smoothing lands between the old opacity and the target and strictly closer to the target while they differ |
| CardFade.StepKeepsInv | src/infinite-canvas/scene.tsx:130-166 | every tick keeps the opacity in [0, 1], a frame parity, and visibility exactly when the opacity is above the threshold |
| CardFade.StepCulls | src/infinite-canvas/scene.tsx:142-147 | past DEPTH_FADE_END + 50 the opacity and uniform go to 0 and the card is hidden on that same tick, with no smoothing |
| CardFade.StepSkipsAlternately | src/infinite-canvas/scene.tsx:130-135 | a hidden, faded card is left unchanged but for its parity on every other frame, and is processed on the frame after |
| CardFade.StepUniforms | src/infinite-canvas/scene.tsx:168-175 | a visible card pushes its opacity to the shader, advances the time uniform by delta, and writes depth exactly above 0.99 |
| CardFade.StepBrightensInRange | src/infinite-canvas/scene.tsx:149-159 | a card in range and within the fade start never gets dimmer on a processed tick |
| CardFade.CardPlane.constructor | src/infinite-canvas/scene.tsx:100 | a card starts at opacity 0, parity 0, hidden, with the uniforms of its fresh material clone: `uOpacity` 1, `uTime` 0 and depth written (organic-gradient.ts:127-135) |
| CardFade.CardPlane.Tick | src/infinite-canvas/scene.tsx:122-176 | an unmounted group changes nothing; otherwise the card's state becomes the specification `Step` of its old state |
| Controller.ChunkKeyChange | src/infinite-canvas/scene.tsx:511-515 | comparing coordinate strings with `lastChunkKey` is comparing chunks, and no chunk has the initial "" key |
| Controller.TouchDistance | src/infinite-canvas/scene.tsx:48-57 | 0 for fewer than two touches; otherwise a non-negative value whose square is the squared distance of the first two |
| Controller.PlainClickTestsTwice | src/infinite-canvas/scene.tsx:405-433 | as written, a click without movement is raycast twice (once by the wrapper, once by `onMouseUp`) |
| Controller.DragReleaseTestsOnce | src/infinite-canvas/scene.tsx:405-433 | as written, a drag released close to its last move is no click but is still raycast once |
| Controller.HitTests | src/infinite-canvas/scene.tsx:405-409 | as intended, one raycast exactly when the release is within 5 pixels of the press on both axes |
| Controller.SteerAxes | src/infinite-canvas/scene.tsx:461-467 | each held key changes exactly its own axis by exactly KEYBOARD_SPEED; opposite keys cancel; no key changes nothing |
| Controller.DriftDecaysOnTouch | src/infinite-canvas/scene.tsx:474-478 | on a touch device, not dragging, the drift shrinks toward 0 on both axes without changing sign |
| Controller.Window | src/infinite-canvas/scene.tsx:524-531 | the window has one chunk per offset |
| Controller.WindowShape | src/infinite-canvas/scene.tsx:524-531 | chunk i of the window is the centre shifted by offset i, keyed by its own coordinate string |
| Controller.WindowKeysDistinct | src/infinite-canvas/scene.tsx:524-531 | distinct offsets give chunks with distinct keys |
| Controller.TickTargets | src/infinite-canvas/scene.tsx:484-503 | the tick folds the scroll into the depth target, clamps it, smooths the velocity toward it and decays it |
| Controller.TickBounds | src/infinite-canvas/scene.tsx:484-503 | after a tick the target velocity lies in [-MAX_VELOCITY, MAX_VELOCITY] per axis, also after the decay, and a velocity within the clamp stays within it |
| Controller.TickMotion | src/infinite-canvas/scene.tsx:484-503 | the base position advances by the new velocity; the camera is the base position shifted by the drift in x and y; the scroll accumulator decays by 0.8; a drag freezes the drift |
| Controller.FloorChunk | src/infinite-canvas/scene.tsx:505-507 | `Math.floor(p / CHUNK_SIZE)` names the chunk whose extent holds p |
| Controller.TickGridHoldsCamera | src/infinite-canvas/scene.tsx:505-509 | the published grid coordinate is the chunk holding the base position |
| Controller.TickChunkWindow | src/infinite-canvas/scene.tsx:505-532 | a new chunk key records the chunk as pending and an unchanged key leaves the pending chunk alone; the window is replaced exactly when a chunk is pending and the throttle has elapsed; then the pending chunk is cleared, the update time becomes now, and the window is the offsets around the pending chunk |
| Controller.StepScroll | src/infinite-canvas/scene.tsx:484-485 | one tick multiplies the scroll accumulator by 0.8 |
| Controller.RunScrollDecays | src/infinite-canvas/scene.tsx:484-485 | with no wheel or pinch event, n ticks multiply the scroll accumulator by 0.8 n times |
| Controller.DecayedPow | src/infinite-canvas/scene.tsx:485 | n successive decays are the start times the n-th power of the factor |
| Controller.StepBounded | src/infinite-canvas/scene.tsx:487-493 | a velocity within the clamp stays within it for one tick |
| Controller.RunVelocityBounded | src/infinite-canvas/scene.tsx:487-493 | a velocity within the clamp stays within it for any number of ticks |
| Controller.StepCoasts | src/infinite-canvas/scene.tsx:484-503 | with no key held and nothing to scroll, a tick only decays a target velocity that is within the clamp |
| Controller.DecayedVecPow | src/infinite-canvas/scene.tsx:501-503 | n decays of a vector scale it by the n-th power of VELOCITY_DECAY |
| Controller.RunTargetDecays | src/infinite-canvas/scene.tsx:501-503 | with keys released and a scroll accumulator of exactly 0, the target velocity decays geometrically tick after tick; with exact numbers the accumulator is 0 only if no wheel or pinch event ever happened, since its decay never reaches 0 |
| Controller.RunDragFreezesDrift | src/infinite-canvas/scene.tsx:474-476 | ticks never end a drag, so while dragging the drift stays frozen over any number of ticks |
| Controller.SceneController.constructor | src/infinite-canvas/scene.tsx:264-278 | the controller starts in `createInitialState(INITIAL_CAMERA_Z)`, camera at (0, 0, INITIAL_CAMERA_Z), no chunks |
| Controller.SceneController.MouseDown | src/infinite-canvas/scene.tsx:398-403 | the press position is remembered as both the click start and `lastMouse`, and dragging starts |
| Controller.SceneController.MouseUp | src/infinite-canvas/scene.tsx:405-409 | as intended, the release is raycast once exactly for a click from the press position, and dragging ends |
| Controller.SceneController.MouseUpAsWritten | src/infinite-canvas/scene.tsx:405-433 | as written, the release is raycast once by the wrapper's click test and once more by `onMouseUp`'s test against `lastMouse`; dragging ends |
| Controller.SceneController.MouseLeave | src/infinite-canvas/scene.tsx:334-338 | the mouse position recentres and dragging ends; nothing else changes |
| Controller.SceneController.MouseMove | src/infinite-canvas/scene.tsx:340-353 | the normalised mouse position is stored; only while dragging does the target velocity move by (-dx * 0.025, +dy * 0.025) and `lastMouse` follow |
| Controller.SceneController.Wheel | src/infinite-canvas/scene.tsx:355-358 | the scroll accumulator grows by deltaY * 0.006; nothing else changes |
| Controller.SceneController.TouchStart | src/infinite-canvas/scene.tsx:360-365 | the touches and their pinch distance (0 for fewer than two touches) are remembered |
| Controller.SceneController.TouchMove | src/infinite-canvas/scene.tsx:367-387 | one finger pans by (-dx * 0.02, +dy * 0.02); otherwise two fingers with a recorded distance add the shrink of the distance times 0.006 to the scroll accumulator; the touches are remembered |
| Controller.SceneController.Tick | src/infinite-canvas/scene.tsx:457-533 | the state, camera and grid become the specification `TickState`, and the window is replaced only when the tick says so; the velocity clamp is kept |
| Controller.SceneController.ApplyKeys | src/infinite-canvas/scene.tsx:461-467 | the target velocity becomes `Steer` of the held keys; nothing else changes |
| Controller.SceneController.UpdateDrift | src/infinite-canvas/scene.tsx:469-482 | the drift becomes `DriftStep`: frozen while dragging, easing to 0 on touch, otherwise easing toward the mouse |
| Controller.SceneController.Integrate | src/infinite-canvas/scene.tsx:484-503 | scroll, clamp, smoothing, integration and decay, in the source's order, and the camera placed at base position plus drift |
| Controller.SceneController.TrackChunk | src/infinite-canvas/scene.tsx:505-515 | the grid is published and the chunk becomes pending exactly when it differs from the last one |
| Controller.SceneController.FlushChunks | src/infinite-canvas/scene.tsx:517-532 | when a chunk is pending and the throttle has elapsed, the window is replaced, the pending chunk cleared and the update time set; otherwise nothing changes |
| Scene.PaletteOf | src/infinite-canvas/scene.tsx:72 | the pool key `rank % 12` is below 12 in magnitude, is the ordinary remainder for non-negative ranks, and is negative only for negative ranks |
| Scene.Material.constructor | src/infinite-canvas/organic-gradient.ts:117-130 | for a rank whose palette exists (`rank % 12` not negative), a new material paints that palette and seeds its noise from the rank |
| Scene.Material.Clone | src/infinite-canvas/scene.tsx:79 | a clone is a fresh material with the same palette and seed |
| Scene.MaterialPool.constructor | src/infinite-canvas/scene.tsx:70 | the pool starts empty |
| Scene.MaterialPool.Get | src/infinite-canvas/scene.tsx:71-80 | the pool is keyed by rank % 12 and creates one material per key, on the first request only; each call returns a fresh clone of the pooled entry, painting the rank's palette, with the seed of the first rank seen for that key; a rank with a negative remainder throws (no material) exactly then and leaves the pool unchanged |
| Scene.MaterialPool.GetForRank | src/infinite-canvas/scene.tsx:71-80 | as intended, a clone with the rank's palette and the rank's own seed; the pool gains at most the key rank % 12; a negative remainder throws as in `Get` |
| Scene.MaterialPool.SizeBound | src/infinite-canvas/scene.tsx:72-77 | whatever ranks are requested, the pool never holds more than 12 materials (a key whose creation throws is never stored) |
| Scene.PoolKeysBound | src/infinite-canvas/scene.tsx:72 | a set of remainders modulo 12 has at most 12 members |
| Scene.SharedSeedExample | src/infinite-canvas/scene.tsx:71-80 | as written, ranks 1 and 13 both get the noise seed of rank 1 |
| Scene.NegativeRankThrows | src/infinite-canvas/scene.tsx:71-77 | rank -1 has no palette: its first request throws and the pool stays empty |
| Scene.OwnSeedExample | src/infinite-canvas/scene.tsx:71-80 | as intended, ranks 1 and 13 keep seeds 1 and 13 |
| Scene.ResolveCard | src/infinite-canvas/scene.tsx:226-227 | `cards[cardIndex % cards.length]` is a card of the list exactly when the list is non-empty and the index is non-negative (or its remainder is 0), and then it is the card at the index modulo the length |
| Scene.ChunkMounts | src/infinite-canvas/scene.tsx:224-239 | at most one mount per placement, each showing a card of the list |
| Scene.ChunkMountsComplete | src/infinite-canvas/scene.tsx:224-239 | with a non-empty list and non-negative indices no placement is skipped: mount i is placement i with card `cardIndex % |cards|` |
| Scene.ChunkMountsEmpty | src/infinite-canvas/scene.tsx:226-227 | with no cards nothing is mounted |
| Scene.GeneratedChunkMounts | src/infinite-canvas/scene.tsx:217-239 | every generated placement of a chunk is mounted once there is one card, the mounts' React keys are pairwise distinct, and a single card is shown on all of them |
| Scene.SceneRendersIff | src/infinite-canvas/scene.tsx:572-574 | the scene renders exactly when every generated placement can be given a card |

## Left out

- Rendering is not modelled: three.js geometry, shaders, the 2D canvas drawing (gradients, fonts, `fillText` positions), raycasting and `window.open`. A texture is the label it was drawn from plus a disposed flag. Raycasting is counted, not performed.
- The screen coordinates a click raycast uses (the canvas rectangle in the wrapper, the window size in `onMouseUp`) are not modelled; only whether a raycast happens is.
- React is not modelled: hooks, memoisation, re-rendering, `KeyboardControls`, and listener registration and cleanup. The held keys are a parameter of the tick.
- `getCardScale` (utils.ts:40-47) is left out: it is a log10 formula with no state or branching beyond its clamp.
- CardTexture.FormatSubscribers: the digits `toFixed` prints are not modelled, only the branch and the value printed.
- Controller.TouchDistance: `Math.sqrt` is not modelled. The caller passes the distance as `span`, with its square required to be the squared distance.
- src/infinite-canvas/organic-gradient.ts is not modelled beyond its palette count (12) and the rank its seed comes from. The shader and the float seed `(rank * 1.618…) % 100` are left out. The TypeError a rank without a palette raises is `None`; where it goes after `useMemo` (React's error handling) is not modelled.
- Floating point is exact: IEEE-754 rounding, NaN and infinities are not modelled. The one NaN case that matters, `% 0` on an empty card list, is modelled as no card. Chunk coordinates are unbounded integers, so Common.IntToString always prints plain decimal digits and Common.IntToStringInjective holds for every coordinate; JavaScript prints exponent notation for magnitudes of 1e21 and more, and its numbers lose integer precision beyond 2^53.
- CardTexture.Truncate: lengths and cuts are counted in Unicode code points, where `text.length` and `slice` count UTF-16 code units. A text with characters outside the Basic Multilingual Plane (an emoji) is cut at a different place than in the source, and the source may cut inside a surrogate pair. CardTexture.Split and CardTexture.Wrap work on the same code-point strings.
- CardTexture.TextureCache and its methods EvictOldest, MakeRoom, Store and Render follow the intended eviction (`Admit`): a full cache evicts its oldest entry whatever its id. The source's `if (firstKey)` test is modelled by CardTexture.AdmitAsWritten, with CardTexture.EmptyIdStallsEviction and CardTexture.EmptyIdOverflow showing where the two differ.
- The constants module is not part of this model, so its constants are configuration parameters. The same holds for the shared utility module (`hashString`, `seededRandom`, `lerp`, `clamp`) and the `CARD_TEX_*` sizes.
- `window.innerWidth` and `innerHeight` are parameters required to be positive.
- `lastChunkKey` is kept as the chunk it names (`None` for ""). Controller.ChunkKeyChange shows that comparing the strings is comparing the chunks.
- Controller.Run takes a list of frames with no input event between them. Interleaved events are the class's methods.
- `onTouchEnd` (scene.tsx:389-393) does to the state exactly what `onTouchStart` does, so it is modelled by SceneController.TouchStart. The cursor style changes are left out.
- The description loop's `line = "..."` before its break is never drawn, so it is not part of a drawn line. CardTexture.WrapFromText proves that no marker reaches the label.
- The `isTouchDevice` argument that scene.tsx:110 passes to `renderCardTexture` is accepted and ignored by CardTexture.TextureCache.Render, as in the source; the texture resolution does not depend on it there.

## Findings

| source | as written | input that shows it | evidently intended | confidence | as-written member | corrected member |
|---|---|---|---|---|---|---|
| src/infinite-canvas/card-texture.ts:147-154 | a full cache evicts its oldest key only `if (firstKey)`, so the falsy id "" is never evicted | a full cache of 512 whose oldest card has id "", then one miss: 513 entries, and every later miss adds one more | the oldest entry is disposed and deleted whatever its id, keeping at most 512 | high, not executed | CardTexture.EmptyIdStallsEviction | CardTexture.AdmitFacts |
| src/infinite-canvas/scene.tsx:405-433 | `onMouseUpWrapper` raycasts a click, then calls `onMouseUp`, which raycasts again when the release is within 5 pixels of `lastMouse` | a press and release at the same point opens the card's link twice; a drag whose last move is within 5 pixels of the release raycasts once, though it is no click | one raycast, exactly for a click from the press position | high, not executed | Controller.PlainClickTestsTwice | Controller.SceneController.MouseUp |
| src/infinite-canvas/scene.tsx:71-80 | the pool clones the material created for the first rank seen under `rank % 12`, seed included | ranks 1 and 13: both cards get the noise seed of rank 1 | each card keeps a noise seed from its own rank, as organic-gradient.ts:119 says | medium, not executed | Scene.SharedSeedExample | Scene.MaterialPool.GetForRank |
