/** The per-frame fade of one card (`CardPlane` in
    src/infinite-canvas/scene.tsx): a target opacity from the card's chunk
    distance to the camera and its depth distance, a hard cull beyond the fade
    range, smoothing toward the target, and a skip on every other frame for
    cards that are hidden and faded out. */
module CardFade {
  import opened Common
  import opened Types

  /** The constants the fade reads (`RENDER_DISTANCE`, `CHUNK_FADE_MARGIN`,
      `DEPTH_FADE_START`, `DEPTH_FADE_END`, `INVIS_THRESHOLD`); only the
      threshold needs a condition. */
  datatype FadeConfig = FadeConfig(
    renderDistance: real,
    chunkFadeMargin: real,
    depthFadeStart: real,
    depthFadeEnd: real,
    invisThreshold: real)
  {
    predicate Valid() { invisThreshold >= 0.0 }
  }

  /** The camera's chunk and depth as the controller publishes them
      (`CameraGridState`). */
  datatype CameraGrid = CameraGrid(cx: int, cy: int, cz: int, camZ: real)

  /** The largest per-axis distance between two chunk coordinates. */
  function ChebyshevDistance(a: Coord, cam: CameraGrid): (d: int)
    ensures d >= 0
    ensures AbsInt(a.x - cam.cx) <= d && AbsInt(a.y - cam.cy) <= d && AbsInt(a.z - cam.cz) <= d
    ensures d == AbsInt(a.x - cam.cx) || d == AbsInt(a.y - cam.cy) || d == AbsInt(a.z - cam.cz)
  {
    var dx, dy, dz := AbsInt(a.x - cam.cx), AbsInt(a.y - cam.cy), AbsInt(a.z - cam.cz);
    if dx >= dy && dx >= dz then dx else if dy >= dz then dy else dz
  }

  /** Fade by chunk distance: full within the render distance, then a linear
      ramp down to 0 over the fade margin (never a margin below 0.0001). */
  function GridFade(dist: real, cfg: FadeConfig): (g: real)
    ensures 0.0 <= g <= 1.0
    ensures dist <= cfg.renderDistance ==> g == 1.0
    ensures dist > cfg.renderDistance ==> g < 1.0
  {
    if dist <= cfg.renderDistance then 1.0
    else Max(0.0, 1.0 - (dist - cfg.renderDistance) / Max(cfg.chunkFadeMargin, 0.0001))
  }

  /** Fade by depth: full up to `DEPTH_FADE_START`, then a linear ramp down to
      0 at `DEPTH_FADE_END` (never a span below 0.0001). */
  function DepthFade(absDepth: real, cfg: FadeConfig): (f: real)
    ensures 0.0 <= f <= 1.0
    ensures absDepth <= cfg.depthFadeStart ==> f == 1.0
    ensures absDepth > cfg.depthFadeStart ==> f < 1.0
  {
    if absDepth <= cfg.depthFadeStart then 1.0
    else Max(0.0, 1.0 - (absDepth - cfg.depthFadeStart) / Max(cfg.depthFadeEnd - cfg.depthFadeStart, 0.0001))
  }

  /** A ramp 1 - (x - start) / span with a positive span falls as x grows. */
  lemma RampFalls(x: real, y: real, start: real, span: real)
    requires x <= y && span > 0.0
    ensures 1.0 - (y - start) / span <= 1.0 - (x - start) / span
  {
    assert (y - start) / span - (x - start) / span == (y - x) / span;
  }

  /** The further a card is in depth, the fainter its depth fade. */
  lemma DepthFadeMonotone(a: real, b: real, cfg: FadeConfig)
    requires a <= b
    ensures DepthFade(b, cfg) <= DepthFade(a, cfg)
  {
    if a > cfg.depthFadeStart {
      RampFalls(a, b, cfg.depthFadeStart, Max(cfg.depthFadeEnd - cfg.depthFadeStart, 0.0001));
    }
  }

  /** The further a card's chunk is, the fainter its grid fade. */
  lemma GridFadeMonotone(a: real, b: real, cfg: FadeConfig)
    requires a <= b
    ensures GridFade(b, cfg) <= GridFade(a, cfg)
  {
    if a > cfg.renderDistance {
      RampFalls(a, b, cfg.renderDistance, Max(cfg.chunkFadeMargin, 0.0001));
    }
  }

  /** The target opacity: the smaller of the grid fade and the squared depth
      fade. */
  function FadeTarget(dist: real, absDepth: real, cfg: FadeConfig): (t: real)
    ensures 0.0 <= t <= 1.0
    ensures t <= GridFade(dist, cfg)
    ensures t <= DepthFade(absDepth, cfg) * DepthFade(absDepth, cfg)
    ensures dist <= cfg.renderDistance && absDepth <= cfg.depthFadeStart ==> t == 1.0
  {
    var f := DepthFade(absDepth, cfg);
    assert 0.0 <= f * f <= 1.0 by { MulNonNeg(f, f); MulNonNeg(f, 1.0 - f); }
    Min(GridFade(dist, cfg), f * f)
  }

  /** The smoothing rule: snap to 0 when both the opacity and the target are
      below the threshold, otherwise move 35% of the way to the target. */
  function Smooth(opacity: real, target: real, threshold: real): (o: real)
    ensures target < threshold && opacity < threshold ==> o == 0.0
    ensures !(target < threshold && opacity < threshold) ==> o == Lerp(opacity, target, 0.35)
    ensures 0.0 <= opacity <= 1.0 && 0.0 <= target <= 1.0 ==> 0.0 <= o <= 1.0
  {
    if target < threshold && opacity < threshold then 0.0 else Lerp(opacity, target, 0.35)
  }

  /** Smoothing never overshoots: the new opacity lies between the old one and
      the target, and is closer to the target (strictly, while they differ),
      unless it snapped to 0. */
  lemma SmoothApproaches(opacity: real, target: real, threshold: real)
    requires !(target < threshold && opacity < threshold)
    ensures var o := Smooth(opacity, target, threshold);
      && Min(opacity, target) <= o <= Max(opacity, target)
      && Abs(o - target) <= Abs(opacity - target)
      && (opacity != target ==> Abs(o - target) < Abs(opacity - target))
  {
    var o := Smooth(opacity, target, threshold);
    assert o - target == (opacity - target) * 0.65;
  }

  /** The per-card state the tick updates: `localState` (opacity, frame
      parity), the group's visibility and the material's uniforms. */
  datatype FadeState = FadeState(
    opacity: real,
    frame: nat,
    visible: bool,
    uOpacity: real,
    uTime: real,
    depthWrite: bool)

  /** Whether the tick returns right after advancing the frame parity. */
  predicate Skips(s: FadeState, frame: nat, cfg: FadeConfig) {
    s.opacity < cfg.invisThreshold && !s.visible && frame == 0
  }

  /** Depth past which a card is culled outright. */
  function CullDepth(cfg: FadeConfig): real { cfg.depthFadeEnd + 50.0 }

  /** One frame of `useFrame` for a mounted card of chunk `chunk` at depth
      `posZ`. */
  function Step(s: FadeState, chunk: Coord, posZ: real, cam: CameraGrid, delta: real, cfg: FadeConfig): FadeState {
    var frame := (s.frame + 1) % 2;
    if Skips(s, frame, cfg) then s.(frame := frame)
    else
      var absDepth := Abs(posZ - cam.camZ);
      if absDepth > CullDepth(cfg) then s.(frame := frame, opacity := 0.0, uOpacity := 0.0, visible := false)
      else
        var dist := ChebyshevDistance(chunk, cam) as real;
        var opacity := Smooth(s.opacity, FadeTarget(dist, absDepth, cfg), cfg.invisThreshold);
        var isVisible := opacity > cfg.invisThreshold;
        if isVisible then
          s.(frame := frame, opacity := opacity, visible := true, uTime := s.uTime + delta,
             uOpacity := opacity, depthWrite := opacity > 0.99)
        else
          s.(frame := frame, opacity := opacity, visible := false)
  }

  /** What every tick keeps: opacity in [0, 1], a frame parity, and visibility
      exactly when the opacity is above the threshold. */
  predicate Inv(s: FadeState, cfg: FadeConfig) {
    && 0.0 <= s.opacity <= 1.0
    && s.frame < 2
    && (s.visible <==> s.opacity > cfg.invisThreshold)
  }

  lemma StepKeepsInv(s: FadeState, chunk: Coord, posZ: real, cam: CameraGrid, delta: real, cfg: FadeConfig)
    requires cfg.Valid() && Inv(s, cfg)
    ensures Inv(Step(s, chunk, posZ, cam, delta, cfg), cfg)
  {
  }

  /** A card beyond the cull depth that is not skipped goes to opacity 0 and
      hidden on this very tick, with no smoothing. */
  lemma StepCulls(s: FadeState, chunk: Coord, posZ: real, cam: CameraGrid, delta: real, cfg: FadeConfig)
    requires !Skips(s, (s.frame + 1) % 2, cfg)
    requires Abs(posZ - cam.camZ) > CullDepth(cfg)
    ensures var t := Step(s, chunk, posZ, cam, delta, cfg);
      t.opacity == 0.0 && t.uOpacity == 0.0 && !t.visible && t.uTime == s.uTime && t.depthWrite == s.depthWrite
  {
  }

  /** A hidden, faded card is unchanged, apart from its parity, on every other
      frame, and is processed on the frame after. */
  lemma StepSkipsAlternately(s: FadeState, chunk: Coord, posZ: real, cam: CameraGrid, delta: real, cfg: FadeConfig)
    requires s.frame == 1 && s.opacity < cfg.invisThreshold && !s.visible
    ensures Step(s, chunk, posZ, cam, delta, cfg) == s.(frame := 0)
    ensures var t := Step(s, chunk, posZ, cam, delta, cfg);
      !Skips(t, (t.frame + 1) % 2, cfg)
  {
  }

  /** A visible result always pushes its opacity to the shader and enables
      depth writes exactly when the card is (nearly) opaque. */
  lemma StepUniforms(s: FadeState, chunk: Coord, posZ: real, cam: CameraGrid, delta: real, cfg: FadeConfig)
    ensures var t := Step(s, chunk, posZ, cam, delta, cfg);
      t.visible && !Skips(s, (s.frame + 1) % 2, cfg) ==>
        t.uOpacity == t.opacity && t.depthWrite == (t.opacity > 0.99) && t.uTime == s.uTime + delta
  {
  }

  /** A card whose chunk is in range and whose depth is within the fade start
      gets target 1, so it brightens on every processed tick. */
  lemma StepBrightensInRange(s: FadeState, chunk: Coord, posZ: real, cam: CameraGrid, delta: real, cfg: FadeConfig)
    requires cfg.Valid() && Inv(s, cfg) && cfg.invisThreshold <= 1.0
    requires ChebyshevDistance(chunk, cam) as real <= cfg.renderDistance
    requires Abs(posZ - cam.camZ) <= cfg.depthFadeStart && Abs(posZ - cam.camZ) <= CullDepth(cfg)
    requires !Skips(s, (s.frame + 1) % 2, cfg)
    ensures s.opacity <= Step(s, chunk, posZ, cam, delta, cfg).opacity
  {
    var absDepth := Abs(posZ - cam.camZ);
    var dist := ChebyshevDistance(chunk, cam) as real;
    assert FadeTarget(dist, absDepth, cfg) == 1.0;
    SmoothApproaches(s.opacity, 1.0, cfg.invisThreshold);
  }

  /** One card's fade state, updated in place each frame. */
  class CardPlane {
    var opacity: real
    var frame: nat
    var visible: bool
    var uOpacity: real
    var uTime: real
    var depthWrite: bool

    function State(): FadeState
      reads this
    {
      FadeState(opacity, frame, visible, uOpacity, uTime, depthWrite)
    }

    /** A new card: opacity 0, frame 0, hidden, with the uniforms of a fresh
        gradient material clone (`uOpacity` 1, `uTime` 0, depth written). */
    constructor ()
      ensures opacity == 0.0 && frame == 0 && !visible
      ensures uOpacity == 1.0 && uTime == 0.0 && depthWrite
    {
      opacity, frame, visible := 0.0, 0, false;
      uOpacity, uTime, depthWrite := 1.0, 0.0, true;
    }

    /** The `useFrame` callback. `mounted` is whether the group exists yet. */
    method Tick(mounted: bool, chunk: Coord, posZ: real, cam: CameraGrid, delta: real, cfg: FadeConfig)
      modifies this
      ensures !mounted ==> State() == old(State())
      ensures mounted ==> State() == Step(old(State()), chunk, posZ, cam, delta, cfg)
    {
      if !mounted {
        return;
      }
      frame := (frame + 1) % 2;
      if opacity < cfg.invisThreshold && !visible && frame == 0 {
        return;
      }
      var absDepth := Abs(posZ - cam.camZ);
      if absDepth > cfg.depthFadeEnd + 50.0 {
        opacity := 0.0;
        uOpacity := 0.0;
        visible := false;
        return;
      }
      var dist := ChebyshevDistance(chunk, cam) as real;
      var target := FadeTarget(dist, absDepth, cfg);
      opacity := Smooth(opacity, target, cfg.invisThreshold);
      var isVisible := opacity > cfg.invisThreshold;
      if visible != isVisible {
        visible := isVisible;
      }
      if isVisible {
        uTime := uTime + delta;
        uOpacity := opacity;
        depthWrite := opacity > 0.99;
      }
    }
  }
}
