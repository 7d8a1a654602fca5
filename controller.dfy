/** The camera controller of src/infinite-canvas/scene.tsx: the mutable
    `ControllerState` shared by the input handlers and the per-frame tick of
    `SceneController`, the camera position it drives, the chunk the camera is
    in, and the window of chunks that is replaced when that chunk changes. */
module Controller {
  import opened Common
  import opened Types
  import opened ChunkGen
  import opened CardFade

  datatype Vec2 = Vec2(x: real, y: real)

  /** One entry of `CHUNK_OFFSETS`. */
  datatype Offset = Offset(dx: int, dy: int, dz: int)

  /** The constants the controller reads (`KEYBOARD_SPEED`, `MAX_VELOCITY`,
      `VELOCITY_LERP`, `VELOCITY_DECAY`, `CHUNK_SIZE`, `CHUNK_OFFSETS`). */
  datatype ControllerConfig = ControllerConfig(
    keyboardSpeed: real,
    maxVelocity: real,
    velocityLerp: real,
    velocityDecay: real,
    chunkSize: real,
    chunkOffsets: seq<Offset>)
  {
    predicate Valid() {
      && maxVelocity >= 0.0
      && 0.0 <= velocityLerp <= 1.0
      && 0.0 <= velocityDecay <= 1.0
      && chunkSize > 0.0
    }
  }

  /** The keys held this frame. */
  datatype Keys = Keys(forward: bool, backward: bool, left: bool, right: bool, up: bool, down: bool)

  /** A touch point (`clientX`, `clientY`). */
  datatype TouchPoint = TouchPoint(clientX: real, clientY: real)

  /** `ControllerState` as a value. */
  datatype ControllerState = ControllerState(
    velocity: Vec3,
    targetVel: Vec3,
    basePos: Vec3,
    drift: Vec2,
    mouse: Vec2,
    lastMouse: Vec2,
    scrollAccum: real,
    isDragging: bool,
    lastTouches: seq<TouchPoint>,
    lastTouchDist: real,
    lastChunk: Option<Coord>,
    lastChunkUpdate: real,
    pendingChunk: Option<Coord>)

  /** `lastChunkKey`, the key string of the last chunk the camera was in, is
      kept as that chunk: "" (no chunk yet) is `None`. */
  function LastKey(last: Option<Coord>): string {
    if last.None? then "" else CoordKey(last.value)
  }

  /** Comparing key strings, as the controller does, is comparing chunks; in
      particular no chunk has the empty key the state starts with. */
  lemma ChunkKeyChange(last: Option<Coord>, c: Coord)
    ensures CoordKey(c) != LastKey(last) <==> last != Some(c)
  {
    if last.Some? {
      CoordKeyInjective(c, last.value);
    }
  }

  /** `createInitialState(camZ)`: at rest at (0, 0, camZ), no chunk yet. */
  function InitialState(camZ: real): ControllerState {
    ControllerState(
      Vec3(0.0, 0.0, 0.0), Vec3(0.0, 0.0, 0.0), Vec3(0.0, 0.0, camZ),
      Vec2(0.0, 0.0), Vec2(0.0, 0.0), Vec2(0.0, 0.0),
      0.0, false, [], 0.0, None, 0.0, None)
  }

  // ---------------------------------------------------------------------
  // Mouse and touch rules

  /** A release counts as a click when it is within 5 pixels of `start` on
      both axes. */
  predicate IsClick(start: Vec2, x: real, y: real) {
    Abs(x - start.x) < 5.0 && Abs(y - start.y) < 5.0
  }

  /** The squared distance between two touch points. */
  function SquaredSpan(a: TouchPoint, b: TouchPoint): real {
    (a.clientX - b.clientX) * (a.clientX - b.clientX) + (a.clientY - b.clientY) * (a.clientY - b.clientY)
  }

  /** `span` is the distance between the first two touches, when there are two. */
  predicate SpanOf(touches: seq<TouchPoint>, span: real) {
    |touches| >= 2 ==> span >= 0.0 && span * span == SquaredSpan(touches[0], touches[1])
  }

  /** `getTouchDistance`: 0 for fewer than two touches, otherwise the distance
      between the first two (the square root is the caller's `span`). */
  function TouchDistance(touches: seq<TouchPoint>, span: real): (d: real)
    requires SpanOf(touches, span)
    ensures d >= 0.0
    ensures |touches| < 2 ==> d == 0.0
    ensures |touches| >= 2 ==> d * d == SquaredSpan(touches[0], touches[1])
  {
    if |touches| < 2 then 0.0 else span
  }

  /** Raycasts a mouse release performs as the handlers are written: the
      wrapper tests from the mouse-down position, then the plain handler tests
      again from `lastMouse`, which a drag moves. */
  function HitTestsAsWritten(clickStart: Vec2, lastMouse: Vec2, x: real, y: real): nat {
    (if IsClick(clickStart, x, y) then 1 else 0) + (if IsClick(lastMouse, x, y) then 1 else 0)
  }

  /** A click without movement raycasts twice as written, so a card under the
      mouse has its link opened twice. */
  lemma PlainClickTestsTwice(p: Vec2)
    ensures HitTestsAsWritten(p, p, p.x, p.y) == 2
  {
  }

  /** A drag from (0, 0) whose last move was to (100, 0) and that is released
      at (101, 0) is no click, yet it is raycast once as written. */
  lemma DragReleaseTestsOnce()
    ensures !IsClick(Vec2(0.0, 0.0), 101.0, 0.0)
    ensures HitTestsAsWritten(Vec2(0.0, 0.0), Vec2(100.0, 0.0), 101.0, 0.0) == 1
  {
  }

  /** Raycasts per release as evidently intended: one, exactly for a click
      from the mouse-down position. */
  function HitTests(clickStart: Vec2, x: real, y: real): (n: nat)
    ensures n <= 1
    ensures n == 1 <==> IsClick(clickStart, x, y)
  {
    if IsClick(clickStart, x, y) then 1 else 0
  }

  // ---------------------------------------------------------------------
  // The per-frame tick, as functions of the state

  /** The keyboard's contribution: each held key moves its axis by the speed. */
  function Push(held: bool, speed: real): real { if held then speed else 0.0 }

  function Steer(tv: Vec3, k: Keys, speed: real): Vec3 {
    Vec3(tv.x - Push(k.left, speed) + Push(k.right, speed),
         tv.y - Push(k.down, speed) + Push(k.up, speed),
         tv.z - Push(k.forward, speed) + Push(k.backward, speed))
  }

  /** Each held key changes exactly its own axis by exactly the speed;
      opposite keys cancel. */
  lemma SteerAxes(tv: Vec3, k: Keys, speed: real)
    ensures k.forward && !k.backward ==> Steer(tv, k, speed).z == tv.z - speed
    ensures k.backward && !k.forward ==> Steer(tv, k, speed).z == tv.z + speed
    ensures k.forward == k.backward ==> Steer(tv, k, speed).z == tv.z
    ensures k.left == k.right ==> Steer(tv, k, speed).x == tv.x
    ensures k.up == k.down ==> Steer(tv, k, speed).y == tv.y
    ensures NoKeys(k) ==> Steer(tv, k, speed) == tv
  {
  }

  predicate NoKeys(k: Keys) {
    !k.forward && !k.backward && !k.left && !k.right && !k.up && !k.down
  }

  /** `isZooming`: the depth speed exceeds 0.05. */
  predicate IsZooming(v: Vec3) { Abs(v.z) > 0.05 }

  /** The drift update: frozen while dragging, easing to 0 on touch devices,
      otherwise easing toward the mouse scaled by the zoom factor. */
  function DriftStep(drift: Vec2, mouse: Vec2, dragging: bool, touch: bool, baseZ: real, zooming: bool): Vec2 {
    var amount := 8.0 * Clamp(baseZ / 50.0, 0.3, 2.0);
    var t := if zooming then 0.2 else 0.12;
    if dragging then drift
    else if touch then Vec2(Lerp(drift.x, 0.0, t), Lerp(drift.y, 0.0, t))
    else Vec2(Lerp(drift.x, mouse.x * amount, t), Lerp(drift.y, mouse.y * amount, t))
  }

  /** On a touch device (not dragging) the drift shrinks toward 0 on both
      axes without changing sign. */
  lemma DriftDecaysOnTouch(drift: Vec2, mouse: Vec2, baseZ: real, zooming: bool)
    ensures var d := DriftStep(drift, mouse, false, true, baseZ, zooming);
      && Abs(d.x) <= Abs(drift.x) && Abs(d.y) <= Abs(drift.y)
      && (drift.x != 0.0 ==> Abs(d.x) < Abs(drift.x))
      && (drift.y != 0.0 ==> Abs(d.y) < Abs(drift.y))
      && d.x * drift.x >= 0.0 && d.y * drift.y >= 0.0
  {
    var t := if zooming then 0.2 else 0.12;
    var d := DriftStep(drift, mouse, false, true, baseZ, zooming);
    assert d.x == drift.x * (1.0 - t);
    assert d.y == drift.y * (1.0 - t);
    MulNonNeg(drift.x * drift.x, 1.0 - t);
    MulNonNeg(drift.y * drift.y, 1.0 - t);
  }

  function ClampVec(v: Vec3, m: real): Vec3 {
    Vec3(Clamp(v.x, -m, m), Clamp(v.y, -m, m), Clamp(v.z, -m, m))
  }

  function LerpVec(a: Vec3, b: Vec3, t: real): Vec3 {
    Vec3(Lerp(a.x, b.x, t), Lerp(a.y, b.y, t), Lerp(a.z, b.z, t))
  }

  function ScaleVec(v: Vec3, d: real): Vec3 {
    Vec3(v.x * d, v.y * d, v.z * d)
  }

  function AddVec(a: Vec3, b: Vec3): Vec3 {
    Vec3(a.x + b.x, a.y + b.y, a.z + b.z)
  }

  /** Every component of `v` lies in [-m, m]. */
  predicate Bounded(v: Vec3, m: real) {
    -m <= v.x <= m && -m <= v.y <= m && -m <= v.z <= m
  }

  /** The chunk containing a point: `Math.floor(p / CHUNK_SIZE)` per axis. */
  function ChunkOf(p: Vec3, k: real): Coord
    requires k > 0.0
  {
    Coord((p.x / k).Floor, (p.y / k).Floor, (p.z / k).Floor)
  }

  /** The chunk window around `c`: one chunk per offset, in the offsets'
      order, keyed by its coordinate string. */
  function Window(c: Coord, offsets: seq<Offset>): (w: seq<ChunkData>)
    ensures |w| == |offsets|
  {
    seq(|offsets|, i requires 0 <= i < |offsets| =>
      var d := Coord(c.x + offsets[i].dx, c.y + offsets[i].dy, c.z + offsets[i].dz);
      ChunkData(CoordKey(d), d.x, d.y, d.z))
  }

  /** What one tick produces besides the new state: the camera position, the
      grid state published to the cards, and the new chunk window if the
      window was replaced. */
  datatype TickResult = TickResult(state: ControllerState, camera: Vec3, grid: CameraGrid, window: Option<seq<ChunkData>>)

  /** One frame of the controller's `useFrame`. */
  function TickState(s: ControllerState, keys: Keys, now: real, isTouchDevice: bool, cfg: ControllerConfig): TickResult
    requires cfg.Valid()
  {
    var tv1 := Steer(s.targetVel, keys, cfg.keyboardSpeed);
    var zooming := IsZooming(s.velocity);
    var drift := DriftStep(s.drift, s.mouse, s.isDragging, isTouchDevice, s.basePos.z, zooming);
    var tv2 := ClampVec(tv1.(z := tv1.z + s.scrollAccum), cfg.maxVelocity);
    var velocity := LerpVec(s.velocity, tv2, cfg.velocityLerp);
    var basePos := AddVec(s.basePos, velocity);
    var camera := Vec3(basePos.x + drift.x, basePos.y + drift.y, basePos.z);
    var c := ChunkOf(basePos, cfg.chunkSize);
    var moved := s.lastChunk != Some(c);
    var pending := if moved then Some(c) else s.pendingChunk;
    var last := if moved then Some(c) else s.lastChunk;
    var throttle := ThrottleMs(zooming, Abs(velocity.z));
    var update := pending.Some? && ShouldThrottle(s.lastChunkUpdate, throttle as real, now);
    var s' := s.(
      targetVel := ScaleVec(tv2, cfg.velocityDecay),
      velocity := velocity,
      basePos := basePos,
      drift := drift,
      scrollAccum := s.scrollAccum * 0.8,
      lastChunk := last,
      pendingChunk := if update then None else pending,
      lastChunkUpdate := if update then now else s.lastChunkUpdate);
    TickResult(s', camera, CameraGrid(c.x, c.y, c.z, basePos.z),
               if update then Some(Window(pending.value, cfg.chunkOffsets)) else None)
  }

  // ---------------------------------------------------------------------
  // Properties of one tick

  lemma ScaleBounded(x: real, d: real, m: real)
    requires -m <= x <= m && 0.0 <= d <= 1.0
    ensures -m <= x * d <= m
  {
    if x >= 0.0 {
      MulNonNeg(x, d);
      MulNonNeg(x, 1.0 - d);
    } else {
      MulNonNeg(-x, d);
      MulNonNeg(-x, 1.0 - d);
    }
  }

  lemma ClampVecBounded(v: Vec3, m: real)
    requires m >= 0.0
    ensures Bounded(ClampVec(v, m), m)
  {
  }

  lemma ScaleVecBounded(v: Vec3, d: real, m: real)
    requires Bounded(v, m) && 0.0 <= d <= 1.0
    ensures Bounded(ScaleVec(v, d), m)
  {
    ScaleBounded(v.x, d, m);
    ScaleBounded(v.y, d, m);
    ScaleBounded(v.z, d, m);
  }

  lemma LerpVecBounded(a: Vec3, b: Vec3, t: real, m: real)
    requires Bounded(a, m) && Bounded(b, m) && 0.0 <= t <= 1.0
    ensures Bounded(LerpVec(a, b, t), m)
  {
  }

  /** The parts of a tick that the velocity bounds depend on. */
  lemma TickTargets(s: ControllerState, keys: Keys, now: real, isTouchDevice: bool, cfg: ControllerConfig)
    requires cfg.Valid()
    ensures var tv1 := Steer(s.targetVel, keys, cfg.keyboardSpeed);
      var tv2 := ClampVec(tv1.(z := tv1.z + s.scrollAccum), cfg.maxVelocity);
      var r := TickState(s, keys, now, isTouchDevice, cfg);
      && r.state.targetVel == ScaleVec(tv2, cfg.velocityDecay)
      && r.state.velocity == LerpVec(s.velocity, tv2, cfg.velocityLerp)
  {
  }

  /** After a tick the target velocity is within the clamp (and so it stays
      after the decay), and a velocity within the clamp stays within it. */
  lemma TickBounds(s: ControllerState, keys: Keys, now: real, isTouchDevice: bool, cfg: ControllerConfig)
    requires cfg.Valid()
    ensures var r := TickState(s, keys, now, isTouchDevice, cfg);
      && Bounded(r.state.targetVel, cfg.maxVelocity)
      && (Bounded(s.velocity, cfg.maxVelocity) ==> Bounded(r.state.velocity, cfg.maxVelocity))
  {
    var m := cfg.maxVelocity;
    var tv1 := Steer(s.targetVel, keys, cfg.keyboardSpeed);
    var tv2 := ClampVec(tv1.(z := tv1.z + s.scrollAccum), m);
    TickTargets(s, keys, now, isTouchDevice, cfg);
    ClampVecBounded(tv1.(z := tv1.z + s.scrollAccum), m);
    ScaleVecBounded(tv2, cfg.velocityDecay, m);
    if Bounded(s.velocity, m) {
      LerpVecBounded(s.velocity, tv2, cfg.velocityLerp, m);
    }
  }

  /** The camera is the base position shifted by the drift in x and y; the
      base position advances by the new velocity; the scroll accumulator has
      been folded into the depth target and decays by 0.8. */
  lemma TickMotion(s: ControllerState, keys: Keys, now: real, isTouchDevice: bool, cfg: ControllerConfig)
    requires cfg.Valid()
    ensures var r := TickState(s, keys, now, isTouchDevice, cfg);
      && r.camera == Vec3(r.state.basePos.x + r.state.drift.x, r.state.basePos.y + r.state.drift.y, r.state.basePos.z)
      && r.state.basePos == AddVec(s.basePos, r.state.velocity)
      && r.state.scrollAccum == s.scrollAccum * 0.8
      && (s.isDragging ==> r.state.drift == s.drift)
      && r.grid.camZ == r.state.basePos.z
  {
  }

  /** `Math.floor(p / k)` names the chunk whose cube holds `p` on that axis. */
  lemma FloorChunk(p: real, k: real)
    requires k > 0.0
    ensures InAxis((p / k).Floor, k, p)
  {
    FloorBelow(p, k);
    FloorAbove(p, k);
  }

  lemma FloorBelow(p: real, k: real)
    requires k > 0.0
    ensures (p / k).Floor as real * k <= p
  {
    var q := p / k;
    var f := q.Floor as real;
    MulNonNeg(q - f, k);
    assert (q - f) * k == q * k - f * k;
    assert q * k == p;
  }

  lemma FloorAbove(p: real, k: real)
    requires k > 0.0
    ensures p < (p / k).Floor as real * k + k
  {
    var q := p / k;
    var f := q.Floor as real;
    MulPos(f + 1.0 - q, k);
    assert (f + 1.0 - q) * k == f * k + k - q * k;
    assert q * k == p;
  }

  lemma MulPos(x: real, y: real)
    requires x > 0.0 && y > 0.0
    ensures x * y > 0.0
  {
  }

  /** The published grid coordinate is the chunk that holds the base
      position. */
  lemma TickGridHoldsCamera(s: ControllerState, keys: Keys, now: real, isTouchDevice: bool, cfg: ControllerConfig)
    requires cfg.Valid()
    ensures var r := TickState(s, keys, now, isTouchDevice, cfg);
      InCube(Coord(r.grid.cx, r.grid.cy, r.grid.cz), cfg.chunkSize, r.state.basePos)
  {
    var r := TickState(s, keys, now, isTouchDevice, cfg);
    FloorChunk(r.state.basePos.x, cfg.chunkSize);
    FloorChunk(r.state.basePos.y, cfg.chunkSize);
    FloorChunk(r.state.basePos.z, cfg.chunkSize);
  }

  /** The pending chunk and the key it was recorded under: a new chunk key
      records the chunk as pending; an unchanged key leaves both alone. The
      window is replaced exactly when a chunk is pending and the throttle has
      elapsed; then the pending chunk is cleared, the update time is `now`,
      and the window is the offsets around that chunk. */
  lemma TickChunkWindow(s: ControllerState, keys: Keys, now: real, isTouchDevice: bool, cfg: ControllerConfig)
    requires cfg.Valid()
    ensures var r := TickState(s, keys, now, isTouchDevice, cfg);
      var c := Coord(r.grid.cx, r.grid.cy, r.grid.cz);
      var pending := if CoordKey(c) != LastKey(s.lastChunk) then Some(c) else s.pendingChunk;
      var throttle := ThrottleMs(IsZooming(s.velocity), Abs(r.state.velocity.z)) as real;
      && LastKey(r.state.lastChunk) == CoordKey(c)
      && (CoordKey(c) == LastKey(s.lastChunk) ==> pending == s.pendingChunk)
      && (r.window.Some? <==> pending.Some? && ShouldThrottle(s.lastChunkUpdate, throttle, now))
      && (r.window.Some? ==>
            && r.state.pendingChunk == None && r.state.lastChunkUpdate == now
            && r.window.value == Window(pending.value, cfg.chunkOffsets))
      && (r.window.None? ==>
            r.state.pendingChunk == pending && r.state.lastChunkUpdate == s.lastChunkUpdate)
  {
    var r := TickState(s, keys, now, isTouchDevice, cfg);
    ChunkKeyChange(s.lastChunk, Coord(r.grid.cx, r.grid.cy, r.grid.cz));
  }

  /** Each chunk of the window is its centre shifted by the matching offset,
      and carries its own coordinate string as its key. */
  lemma WindowShape(c: Coord, offsets: seq<Offset>)
    ensures forall i :: 0 <= i < |offsets| ==>
      && Window(c, offsets)[i].cx == c.x + offsets[i].dx
      && Window(c, offsets)[i].cy == c.y + offsets[i].dy
      && Window(c, offsets)[i].cz == c.z + offsets[i].dz
      && Window(c, offsets)[i].key == CoordKey(Coord(Window(c, offsets)[i].cx, Window(c, offsets)[i].cy, Window(c, offsets)[i].cz))
  {
  }

  /** Distinct offsets give chunks with distinct keys. */
  lemma WindowKeysDistinct(c: Coord, offsets: seq<Offset>)
    requires Distinct(offsets)
    ensures forall i, j :: 0 <= i < j < |offsets| ==> Window(c, offsets)[i].key != Window(c, offsets)[j].key
  {
    var w := Window(c, offsets);
    forall i, j | 0 <= i < j < |offsets| ensures w[i].key != w[j].key {
      assert offsets[i] != offsets[j];
      CoordKeyInjective(Coord(w[i].cx, w[i].cy, w[i].cz), Coord(w[j].cx, w[j].cy, w[j].cz));
    }
  }

  // ---------------------------------------------------------------------
  // Many ticks without input events

  datatype TickInput = TickInput(keys: Keys, now: real, isTouchDevice: bool)

  /** The state after one tick. */
  function Step(s: ControllerState, k: TickInput, cfg: ControllerConfig): ControllerState
    requires cfg.Valid()
  {
    TickState(s, k.keys, k.now, k.isTouchDevice, cfg).state
  }

  /** Successive frames, each with its own keys and clock reading, and no
      input event between them. */
  datatype Frames = End | Frame(input: TickInput, rest: Frames)
  {
    function Count(): nat {
      if End? then 0 else 1 + rest.Count()
    }
  }

  /** The state after one tick per frame. */
  function Run(s: ControllerState, fs: Frames, cfg: ControllerConfig): ControllerState
    requires cfg.Valid()
    decreases fs
  {
    if fs.End? then s else Run(Step(s, fs.input, cfg), fs.rest, cfg)
  }

  /** No key is held in any of the frames. */
  predicate KeysReleased(fs: Frames) {
    fs.End? || (NoKeys(fs.input.keys) && KeysReleased(fs.rest))
  }

  function Pow(x: real, n: nat): real
    decreases n
  {
    if n == 0 then 1.0 else x * Pow(x, n - 1)
  }

  lemma MulEq(x: real, a: real, b: real)
    requires a == b
    ensures x * a == x * b
  {
  }

  /** `n` successive multiplications of `x` by `d`. */
  function Decayed(x: real, d: real, n: nat): real
    decreases n
  {
    if n == 0 then x else Decayed(x * d, d, n - 1)
  }

  lemma DecayedStep(x: real, y: real, d: real, n: nat)
    requires n > 0 && y == x * d
    ensures Decayed(x, d, n) == Decayed(y, d, n - 1)
  {
  }

  /** Successive decays are a geometric sequence. */
  lemma {:induction false} DecayedPow(x: real, d: real, n: nat)
    ensures Decayed(x, d, n) == x * Pow(d, n)
    decreases n
  {
    if n > 0 {
      DecayedPow(x * d, d, n - 1);
      var p := Pow(d, n - 1);
      MulEq(x, Pow(d, n), d * p);
      assert (x * d) * p == x * (d * p);
    }
  }

  /** The scroll accumulator after one tick. */
  lemma StepScroll(s: ControllerState, k: TickInput, cfg: ControllerConfig)
    requires cfg.Valid()
    ensures Step(s, k, cfg).scrollAccum == s.scrollAccum * 0.8
  {
  }

  /** Without wheel or pinch events the scroll accumulator decays by 0.8 per
      tick (`DecayedPow` gives the closed form `0.8^n` times the start). */
  lemma {:induction false} RunScrollDecays(s: ControllerState, fs: Frames, cfg: ControllerConfig)
    requires cfg.Valid()
    ensures Run(s, fs, cfg).scrollAccum == Decayed(s.scrollAccum, 0.8, fs.Count())
    decreases fs
  {
    if fs.Frame? {
      var s' := Step(s, fs.input, cfg);
      StepScroll(s, fs.input, cfg);
      RunScrollDecays(s', fs.rest, cfg);
      assert fs.Count() == fs.rest.Count() + 1;
      assert s'.scrollAccum == s.scrollAccum * 0.8;
      DecayedStep(s.scrollAccum, s'.scrollAccum, 0.8, fs.Count());
    }
  }

  /** A velocity within the clamp stays within it for one tick. */
  lemma StepBounded(s: ControllerState, k: TickInput, cfg: ControllerConfig)
    requires cfg.Valid() && Bounded(s.velocity, cfg.maxVelocity)
    ensures Bounded(Step(s, k, cfg).velocity, cfg.maxVelocity)
  {
    TickBounds(s, k.keys, k.now, k.isTouchDevice, cfg);
  }

  /** A velocity within the clamp stays within it, tick after tick. */
  lemma {:induction false} RunVelocityBounded(s: ControllerState, fs: Frames, cfg: ControllerConfig)
    requires cfg.Valid() && Bounded(s.velocity, cfg.maxVelocity)
    ensures Bounded(Run(s, fs, cfg).velocity, cfg.maxVelocity)
    decreases fs
  {
    if fs.Frame? {
      StepBounded(s, fs.input, cfg);
      RunVelocityBounded(Step(s, fs.input, cfg), fs.rest, cfg);
    }
  }

  /** One tick with no key held and nothing to scroll only decays a target
      velocity that is within the clamp. */
  lemma StepCoasts(s: ControllerState, k: TickInput, cfg: ControllerConfig)
    requires cfg.Valid() && Bounded(s.targetVel, cfg.maxVelocity) && s.scrollAccum == 0.0 && NoKeys(k.keys)
    ensures var s' := Step(s, k, cfg);
      && s'.targetVel == ScaleVec(s.targetVel, cfg.velocityDecay)
      && s'.scrollAccum == 0.0
      && Bounded(s'.targetVel, cfg.maxVelocity)
  {
    var m, tv := cfg.maxVelocity, s.targetVel;
    TickTargets(s, k.keys, k.now, k.isTouchDevice, cfg);
    StepScroll(s, k, cfg);
    SteerAxes(tv, k.keys, cfg.keyboardSpeed);
    assert tv.(z := tv.z + s.scrollAccum) == tv;
    assert ClampVec(tv, m) == tv;
    ScaleVecBounded(tv, cfg.velocityDecay, m);
  }

  /** `n` successive decays of a vector by `d`. */
  function DecayedVec(v: Vec3, d: real, n: nat): Vec3
    decreases n
  {
    if n == 0 then v else DecayedVec(ScaleVec(v, d), d, n - 1)
  }

  lemma ScaleTwice(v: Vec3, d: real, p: real)
    ensures ScaleVec(ScaleVec(v, d), p) == ScaleVec(v, d * p)
  {
    assert (v.x * d) * p == v.x * (d * p);
    assert (v.y * d) * p == v.y * (d * p);
    assert (v.z * d) * p == v.z * (d * p);
  }

  /** Successive decays of a vector scale it by a power of the decay. */
  lemma {:induction false} DecayedVecPow(v: Vec3, d: real, n: nat)
    ensures DecayedVec(v, d, n) == ScaleVec(v, Pow(d, n))
    decreases n
  {
    if n == 0 {
      assert ScaleVec(v, 1.0) == v;
    } else {
      DecayedVecPow(ScaleVec(v, d), d, n - 1);
      var p := Pow(d, n - 1);
      ScaleTwice(v, d, p);
      assert Pow(d, n) == d * p;
    }
  }

  /** Once the keys are released and the scroll accumulator is exactly 0 (with
      exact numbers: no wheel or pinch event has ever happened, as its decay
      never reaches 0), a target velocity within the clamp decays by
      `VELOCITY_DECAY` per tick (`DecayedVecPow` gives the closed form). */
  lemma {:induction false} RunTargetDecays(s: ControllerState, fs: Frames, cfg: ControllerConfig)
    requires cfg.Valid() && Bounded(s.targetVel, cfg.maxVelocity) && s.scrollAccum == 0.0
    requires KeysReleased(fs)
    ensures Run(s, fs, cfg).targetVel == DecayedVec(s.targetVel, cfg.velocityDecay, fs.Count())
    decreases fs
  {
    if fs.Frame? {
      var s' := Step(s, fs.input, cfg);
      StepCoasts(s, fs.input, cfg);
      RunTargetDecays(s', fs.rest, cfg);
      assert fs.Count() == fs.rest.Count() + 1;
    }
  }

  /** Ticks never start or end a drag, so while dragging the drift stays
      frozen. */
  lemma {:induction false} RunDragFreezesDrift(s: ControllerState, fs: Frames, cfg: ControllerConfig)
    requires cfg.Valid() && s.isDragging
    ensures Run(s, fs, cfg).drift == s.drift && Run(s, fs, cfg).isDragging
    decreases fs
  {
    if fs.Frame? {
      RunDragFreezesDrift(Step(s, fs.input, cfg), fs.rest, cfg);
    }
  }

  // ---------------------------------------------------------------------
  // The controller object

  /** `SceneController`'s mutable state: `ControllerState`, the `clickStart`
      the wrapped mouse handlers keep, the camera position, the published
      camera grid and the chunk window. */
  class SceneController {
    const cfg: ControllerConfig
    var velocity: Vec3
    var targetVel: Vec3
    var basePos: Vec3
    var drift: Vec2
    var mouse: Vec2
    var lastMouse: Vec2
    var scrollAccum: real
    var isDragging: bool
    var lastTouches: seq<TouchPoint>
    var lastTouchDist: real
    var lastChunk: Option<Coord>
    var lastChunkUpdate: real
    var pendingChunk: Option<Coord>
    var clickStart: Vec2
    var camera: Vec3
    var grid: CameraGrid
    var chunks: seq<ChunkData>

    function State(): ControllerState
      reads this
    {
      ControllerState(velocity, targetVel, basePos, drift, mouse, lastMouse, scrollAccum, isDragging,
                      lastTouches, lastTouchDist, lastChunk, lastChunkUpdate, pendingChunk)
    }

    /** What every handler and every tick keeps: valid constants and a
        velocity within the clamp. */
    ghost predicate Valid()
      reads this
    {
      cfg.Valid() && Bounded(velocity, cfg.maxVelocity)
    }

    /** The state created with `createInitialState(INITIAL_CAMERA_Z)`, the camera
        at (0, 0, INITIAL_CAMERA_Z) and no chunks yet. */
    constructor (cfg: ControllerConfig, initialCameraZ: real)
      requires cfg.Valid()
      ensures Valid() && this.cfg == cfg
      ensures State() == InitialState(initialCameraZ)
      ensures clickStart == Vec2(0.0, 0.0) && camera == Vec3(0.0, 0.0, initialCameraZ)
      ensures grid == CameraGrid(0, 0, 0, initialCameraZ) && chunks == []
    {
      this.cfg := cfg;
      velocity, targetVel, basePos := Vec3(0.0, 0.0, 0.0), Vec3(0.0, 0.0, 0.0), Vec3(0.0, 0.0, initialCameraZ);
      drift, mouse, lastMouse := Vec2(0.0, 0.0), Vec2(0.0, 0.0), Vec2(0.0, 0.0);
      scrollAccum, isDragging, lastTouches, lastTouchDist := 0.0, false, [], 0.0;
      lastChunk, lastChunkUpdate, pendingChunk := None, 0.0, None;
      clickStart := Vec2(0.0, 0.0);
      camera := Vec3(0.0, 0.0, initialCameraZ);
      grid := CameraGrid(0, 0, 0, initialCameraZ);
      chunks := [];
    }

    /** `onMouseDownWrapper`: remember the press position, start dragging. */
    method MouseDown(x: real, y: real)
      requires Valid()
      modifies this
      ensures Valid()
      ensures State() == old(State()).(isDragging := true, lastMouse := Vec2(x, y))
      ensures clickStart == Vec2(x, y)
      ensures camera == old(camera) && grid == old(grid) && chunks == old(chunks)
    {
      clickStart := Vec2(x, y);
      isDragging := true;
      lastMouse := Vec2(x, y);
    }

    /** `onMouseUpWrapper` with a single click test: the release at (x, y) is a
        click, to be raycast once, exactly when it is within 5 pixels of the
        press; dragging ends either way. */
    method MouseUp(x: real, y: real) returns (hitTests: nat)
      requires Valid()
      modifies this
      ensures Valid()
      ensures hitTests == HitTests(old(clickStart), x, y)
      ensures State() == old(State()).(isDragging := false)
      ensures clickStart == old(clickStart) && camera == old(camera) && grid == old(grid) && chunks == old(chunks)
    {
      hitTests := if Abs(x - clickStart.x) < 5.0 && Abs(y - clickStart.y) < 5.0 then 1 else 0;
      isDragging := false;
    }

    /** `onMouseUpWrapper` as written: its own click test, then `onMouseUp`,
        which tests again against `lastMouse`. */
    method MouseUpAsWritten(x: real, y: real) returns (hitTests: nat)
      requires Valid()
      modifies this
      ensures Valid()
      ensures hitTests == HitTestsAsWritten(old(clickStart), old(lastMouse), x, y)
      ensures State() == old(State()).(isDragging := false)
      ensures clickStart == old(clickStart) && camera == old(camera) && grid == old(grid) && chunks == old(chunks)
    {
      hitTests := 0;
      if Abs(x - clickStart.x) < 5.0 && Abs(y - clickStart.y) < 5.0 {
        hitTests := hitTests + 1;
      }
      isDragging := false;
      if Abs(x - lastMouse.x) < 5.0 && Abs(y - lastMouse.y) < 5.0 {
        hitTests := hitTests + 1;
      }
    }

    /** `onMouseLeave`: the mouse position recentres and dragging ends. */
    method MouseLeave()
      requires Valid()
      modifies this
      ensures Valid()
      ensures State() == old(State()).(mouse := Vec2(0.0, 0.0), isDragging := false)
      ensures clickStart == old(clickStart) && camera == old(camera) && grid == old(grid) && chunks == old(chunks)
    {
      mouse := Vec2(0.0, 0.0);
      isDragging := false;
    }

    /** `onMouseMove` at (x, y) in a window of the given size: the normalised
        mouse position always; while dragging, the target velocity moves against the
        drag (0.025 per pixel) and `lastMouse` follows the mouse. */
    method MouseMove(x: real, y: real, innerWidth: real, innerHeight: real)
      requires Valid() && innerWidth > 0.0 && innerHeight > 0.0
      modifies this
      ensures Valid()
      ensures mouse == Vec2(x / innerWidth * 2.0 - 1.0, -(y / innerHeight) * 2.0 + 1.0)
      ensures old(isDragging) ==>
        && targetVel == old(targetVel).(x := old(targetVel).x - (x - old(lastMouse).x) * 0.025,
                                        y := old(targetVel).y + (y - old(lastMouse).y) * 0.025)
        && lastMouse == Vec2(x, y)
      ensures !old(isDragging) ==> targetVel == old(targetVel) && lastMouse == old(lastMouse)
      ensures State() == old(State()).(mouse := mouse, targetVel := targetVel, lastMouse := lastMouse)
      ensures clickStart == old(clickStart) && camera == old(camera) && grid == old(grid) && chunks == old(chunks)
    {
      mouse := Vec2(x / innerWidth * 2.0 - 1.0, -(y / innerHeight) * 2.0 + 1.0);
      if isDragging {
        targetVel := targetVel.(x := targetVel.x - (x - lastMouse.x) * 0.025);
        targetVel := targetVel.(y := targetVel.y + (y - lastMouse.y) * 0.025);
        lastMouse := Vec2(x, y);
      }
    }

    /** `onWheel`: the scroll accumulator grows by 0.006 per wheel unit. */
    method Wheel(deltaY: real)
      requires Valid()
      modifies this
      ensures Valid()
      ensures State() == old(State()).(scrollAccum := old(scrollAccum) + deltaY * 0.006)
      ensures clickStart == old(clickStart) && camera == old(camera) && grid == old(grid) && chunks == old(chunks)
    {
      scrollAccum := scrollAccum + deltaY * 0.006;
    }

    /** `onTouchStart` (and `onTouchEnd`, which does the same to the state):
        remember the touches and their pinch distance. `span` is the distance
        between the first two touches. */
    method TouchStart(touches: seq<TouchPoint>, span: real)
      requires Valid() && SpanOf(touches, span)
      modifies this
      ensures Valid()
      ensures State() == old(State()).(lastTouches := touches, lastTouchDist := TouchDistance(touches, span))
      ensures clickStart == old(clickStart) && camera == old(camera) && grid == old(grid) && chunks == old(chunks)
    {
      lastTouches := touches;
      lastTouchDist := TouchDistance(touches, span);
    }

    /** `onTouchMove`: one finger pans (0.02 per pixel, against the motion);
        two fingers, after a pinch distance was recorded, add the shrink of the
        distance to the scroll accumulator; the touches are remembered. */
    method TouchMove(touches: seq<TouchPoint>, span: real)
      requires Valid() && SpanOf(touches, span)
      modifies this
      ensures Valid()
      ensures |touches| == 1 && |old(lastTouches)| >= 1 ==>
        && targetVel == old(targetVel).(
             x := old(targetVel).x - (touches[0].clientX - old(lastTouches)[0].clientX) * 0.02,
             y := old(targetVel).y + (touches[0].clientY - old(lastTouches)[0].clientY) * 0.02)
        && scrollAccum == old(scrollAccum) && lastTouchDist == old(lastTouchDist)
      ensures !(|touches| == 1 && |old(lastTouches)| >= 1) && |touches| == 2 && old(lastTouchDist) > 0.0 ==>
        && scrollAccum == old(scrollAccum) + (old(lastTouchDist) - span) * 0.006
        && lastTouchDist == span && targetVel == old(targetVel)
      ensures !(|touches| == 1 && |old(lastTouches)| >= 1) && !(|touches| == 2 && old(lastTouchDist) > 0.0) ==>
        targetVel == old(targetVel) && scrollAccum == old(scrollAccum) && lastTouchDist == old(lastTouchDist)
      ensures State() == old(State()).(targetVel := targetVel, scrollAccum := scrollAccum,
                                       lastTouchDist := lastTouchDist, lastTouches := touches)
      ensures clickStart == old(clickStart) && camera == old(camera) && grid == old(grid) && chunks == old(chunks)
    {
      if |touches| == 1 && |lastTouches| >= 1 {
        var touch, last := touches[0], lastTouches[0];
        targetVel := targetVel.(x := targetVel.x - (touch.clientX - last.clientX) * 0.02);
        targetVel := targetVel.(y := targetVel.y + (touch.clientY - last.clientY) * 0.02);
      } else if |touches| == 2 && lastTouchDist > 0.0 {
        var dist := TouchDistance(touches, span);
        scrollAccum := scrollAccum + (lastTouchDist - dist) * 0.006;
        lastTouchDist := dist;
      }
      lastTouches := touches;
    }

    /** The `useFrame` callback: `keys` are the held keys and `now` is
        `performance.now()`. */
    method Tick(keys: Keys, now: real, isTouchDevice: bool)
      requires Valid()
      modifies this
      ensures Valid()
      ensures var r := TickState(old(State()), keys, now, isTouchDevice, cfg);
        && State() == r.state && camera == r.camera && grid == r.grid
        && chunks == (if r.window.Some? then r.window.value else old(chunks))
      ensures clickStart == old(clickStart)
    {
      TickBounds(State(), keys, now, isTouchDevice, cfg);
      ApplyKeys(keys);
      var isZooming := Abs(velocity.z) > 0.05;
      UpdateDrift(isTouchDevice, isZooming);
      Integrate();
      TrackChunk();
      FlushChunks(isZooming, now);
    }

    /** The held keys nudge the target velocity. */
    method ApplyKeys(k: Keys)
      modifies this
      ensures State() == old(State()).(targetVel := Steer(old(targetVel), k, cfg.keyboardSpeed))
      ensures clickStart == old(clickStart) && camera == old(camera) && grid == old(grid) && chunks == old(chunks)
    {
      var speed := cfg.keyboardSpeed;
      var tv := targetVel;
      if k.forward { tv := tv.(z := tv.z - speed); }
      if k.backward { tv := tv.(z := tv.z + speed); }
      if k.left { tv := tv.(x := tv.x - speed); }
      if k.right { tv := tv.(x := tv.x + speed); }
      if k.down { tv := tv.(y := tv.y - speed); }
      if k.up { tv := tv.(y := tv.y + speed); }
      assert tv == Steer(targetVel, k, speed);
      targetVel := tv;
    }

    /** The drift eases toward its goal unless a drag holds it. */
    method UpdateDrift(isTouchDevice: bool, isZooming: bool)
      modifies this
      ensures State() == old(State()).(drift := DriftStep(old(drift), old(mouse), old(isDragging), isTouchDevice,
                                                          old(basePos).z, isZooming))
      ensures clickStart == old(clickStart) && camera == old(camera) && grid == old(grid) && chunks == old(chunks)
    {
      var zoomFactor := Clamp(basePos.z / 50.0, 0.3, 2.0);
      var driftAmount := 8.0 * zoomFactor;
      var driftLerp := if isZooming then 0.2 else 0.12;
      var d := drift;
      if isDragging {
      } else if isTouchDevice {
        d := d.(x := Lerp(d.x, 0.0, driftLerp));
        d := d.(y := Lerp(d.y, 0.0, driftLerp));
      } else {
        d := d.(x := Lerp(d.x, mouse.x * driftAmount, driftLerp));
        d := d.(y := Lerp(d.y, mouse.y * driftAmount, driftLerp));
      }
      assert d == DriftStep(drift, mouse, isDragging, isTouchDevice, basePos.z, isZooming);
      drift := d;
    }

    /** Scroll into the depth target, clamp, smooth the velocity, move, place
        the camera, decay the target. */
    method Integrate()
      modifies this
      ensures var tv := ClampVec(old(targetVel).(z := old(targetVel).z + old(scrollAccum)), cfg.maxVelocity);
        var v := LerpVec(old(velocity), tv, cfg.velocityLerp);
        && State() == old(State()).(
             targetVel := ScaleVec(tv, cfg.velocityDecay),
             velocity := v,
             basePos := AddVec(old(basePos), v),
             scrollAccum := old(scrollAccum) * 0.8)
        && camera == Vec3(basePos.x + drift.x, basePos.y + drift.y, basePos.z)
      ensures clickStart == old(clickStart) && grid == old(grid) && chunks == old(chunks)
    {
      var tv := targetVel.(z := targetVel.z + scrollAccum);
      var scroll := scrollAccum * 0.8;
      tv := ClampVec(tv, cfg.maxVelocity);
      var v := LerpVec(velocity, tv, cfg.velocityLerp);
      var base := AddVec(basePos, v);
      var cam := Vec3(base.x + drift.x, base.y + drift.y, base.z);
      tv := ScaleVec(tv, cfg.velocityDecay);
      targetVel, scrollAccum, velocity, basePos, camera := tv, scroll, v, base, cam;
    }

    /** Publish the camera's chunk and record it as pending when it differs
        from the last one (the source compares the coordinate strings). */
    method TrackChunk()
      requires cfg.Valid()
      modifies this
      ensures var c := ChunkOf(old(basePos), cfg.chunkSize);
        && grid == CameraGrid(c.x, c.y, c.z, old(basePos).z)
        && State() == old(State()).(
             lastChunk := Some(c),
             pendingChunk := if old(lastChunk) != Some(c) then Some(c) else old(pendingChunk))
      ensures clickStart == old(clickStart) && camera == old(camera) && chunks == old(chunks)
    {
      var c := ChunkOf(basePos, cfg.chunkSize);
      grid := CameraGrid(c.x, c.y, c.z, basePos.z);
      var key := CoordKey(c);
      ChunkKeyChange(lastChunk, c);
      if key != LastKey(lastChunk) {
        pendingChunk, lastChunk := Some(c), Some(c);
      }
    }

    /** Replace the window with the pending chunk's once the throttle allows. */
    method FlushChunks(isZooming: bool, now: real)
      modifies this
      ensures var update := old(pendingChunk).Some?
          && ShouldThrottle(old(lastChunkUpdate), ThrottleMs(isZooming, Abs(old(velocity).z)) as real, now);
        && State() == old(State()).(
             pendingChunk := if update then None else old(pendingChunk),
             lastChunkUpdate := if update then now else old(lastChunkUpdate))
        && chunks == (if update then Window(old(pendingChunk).value, cfg.chunkOffsets) else old(chunks))
      ensures clickStart == old(clickStart) && camera == old(camera) && grid == old(grid)
    {
      var throttleMs := ThrottleMs(isZooming, Abs(velocity.z));
      if pendingChunk.Some? && ShouldThrottle(lastChunkUpdate, throttleMs as real, now) {
        var p := pendingChunk.value;
        pendingChunk, lastChunkUpdate, chunks := None, now, Window(p, cfg.chunkOffsets);
      }
    }
  }
}
