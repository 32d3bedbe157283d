/** The decidable skeleton of the per-frame engine of
    components/InteractiveScene.tsx: the metric-to-target maps, the camera
    placement with its `pre`-phase jitter, the per-scene vertex targets, and
    the `Engine` class whose `Animate` method is one call of the `animate`
    frame callback. Sines, cosines and simplex noise are inputs in [-1, 1];
    the square root is an input function; WebGL is not modelled. */
module SceneEngine {
  import opened SceneController
  import opened Smoothing
  import opened SceneTables
  import opened Lattice

  // ---------------------------------------------------------------------
  // Metric targets

  const MinStarSize: real := 0.07
  const MaxStarSize: real := 0.115
  const MinStarOpacity: real := 0.55
  const MaxStarOpacity: real := 0.95
  const MinGlitchIntensity: real := 0.28
  const MaxGlitchIntensity: real := 1.38

  /** The star point size target: grows with the project count, saturating
      at eight projects. */
  function StarSizeTarget(m: SceneMetrics): (r: real)
    ensures MinStarSize <= r <= MaxStarSize
    ensures m.projectCount <= 0.0 ==> r == MinStarSize
    ensures m.projectCount >= 8.0 ==> r == MaxStarSize
  {
    0.07 + Clamp01(m.projectCount / 8.0) * 0.045
  }

  /** The star opacity target: grows with the outreach level. */
  function StarOpacityTarget(m: SceneMetrics): (r: real)
    ensures MinStarOpacity <= r <= MaxStarOpacity
    ensures m.outreachLevel <= 0.0 ==> r == MinStarOpacity
    ensures m.outreachLevel >= 1.0 ==> r == MaxStarOpacity
  {
    0.55 + Clamp01(m.outreachLevel) * 0.4
  }

  /** The glitch-stick intensity target: grows with the collaboration
      factor, plus a boost during the `pre` phase. */
  function GlitchIntensityTarget(m: SceneMetrics, phase: TransitionPhase): (r: real)
    ensures MinGlitchIntensity <= r <= MaxGlitchIntensity
    ensures m.collaborationFactor <= 0.0 && phase != Pre ==> r == MinGlitchIntensity
    ensures m.collaborationFactor >= 1.0 && phase == Pre ==> r == MaxGlitchIntensity
  {
    0.28 + Clamp01(m.collaborationFactor) * 0.9 + (if phase == Pre then 0.2 else 0.0)
  }

  /** Each target grows with its metric. */
  lemma MetricTargetsMonotone(m: SceneMetrics, m': SceneMetrics, phase: TransitionPhase)
    ensures m.projectCount <= m'.projectCount ==> StarSizeTarget(m) <= StarSizeTarget(m')
    ensures m.outreachLevel <= m'.outreachLevel ==> StarOpacityTarget(m) <= StarOpacityTarget(m')
    ensures m.collaborationFactor <= m'.collaborationFactor
        ==> GlitchIntensityTarget(m, phase) <= GlitchIntensityTarget(m', phase)
  {
    if m.projectCount <= m'.projectCount {
      Clamp01Monotone(m.projectCount / 8.0, m'.projectCount / 8.0);
    }
    if m.outreachLevel <= m'.outreachLevel {
      Clamp01Monotone(m.outreachLevel, m'.outreachLevel);
    }
    if m.collaborationFactor <= m'.collaborationFactor {
      Clamp01Monotone(m.collaborationFactor, m'.collaborationFactor);
    }
  }

  /** Only the `pre` phase boosts the glitch target, by exactly 0.2. */
  lemma GlitchBoostOnlyInPre(m: SceneMetrics, phase: TransitionPhase)
    ensures phase == Pre ==> GlitchIntensityTarget(m, phase) == GlitchIntensityTarget(m, Idle) + 0.2
    ensures phase != Pre ==> GlitchIntensityTarget(m, phase) == GlitchIntensityTarget(m, Idle)
  {
  }

  // ---------------------------------------------------------------------
  // Frame inputs

  /** The pointer position, in [-1, 1] across the container when inside it. */
  datatype Pointer = Pointer(x: real, y: real)

  /** The per-frame trigonometric values: camera shake `sin(56 t)`,
      `cos(48 t)`, `sin(40 t)`, look-at shake `sin(36 t)`, `cos(32 t)`, the
      home pulse `sin(0.8 t)` and flow `sin(0.35 t)`, and the emissive glow
      `sin(0.6 t)`, for elapsed time `t`. */
  datatype FrameWaves = FrameWaves(
    shakeX: real, shakeY: real, shakeZ: real, lookX: real, lookY: real,
    pulse: real, flow: real, glow: real)

  predicate Unit(v: real)
  {
    -1.0 <= v <= 1.0
  }

  predicate WavesInRange(w: FrameWaves)
  {
    Unit(w.shakeX) && Unit(w.shakeY) && Unit(w.shakeZ) && Unit(w.lookX) && Unit(w.lookY)
    && Unit(w.pulse) && Unit(w.flow) && Unit(w.glow)
  }

  /** The per-vertex noise and trigonometric values: the two 4-D simplex
      noise samples of the home scene, the about-scene drift wave, the three
      projects-scene waves and the three contact-scene waves. */
  datatype VertexSamples = VertexSamples(
    noise: real, secondary: real, drift: real,
    latticeX: real, latticeY: real, latticeZ: real,
    planeX: real, ripple: real, planeZ: real)

  predicate SamplesInRange(s: VertexSamples)
  {
    Unit(s.noise) && Unit(s.secondary) && Unit(s.drift) && Unit(s.latticeX) && Unit(s.latticeY)
    && Unit(s.latticeZ) && Unit(s.planeX) && Unit(s.ripple) && Unit(s.planeZ)
  }

  /** Everything one frame reads: whether the tab is hidden, the controller's
      scene, metrics and phase, the elapsed time, the pointer, the waves, the
      per-vertex samples and the square root. */
  datatype FrameInput = FrameInput(
    hidden: bool, state: SceneState, metrics: SceneMetrics, phase: TransitionPhase,
    elapsed: real, pointer: Pointer, waves: FrameWaves,
    samples: nat -> VertexSamples, root: real -> real)

  // ---------------------------------------------------------------------
  // Camera

  const CameraJitter: real := 0.04

  /** Where the camera is pulled this frame: the scene's anchor moved by the
      pointer, plus a shake in the `pre` phase. */
  function CameraBase(s: SceneState, p: Pointer, phase: TransitionPhase, w: FrameWaves): Vec3
  {
    var a := CameraAnchor(s).position;
    var x := a.x + p.x * Influence(s);
    var y := a.y + -p.y * Influence(s) * 0.6;
    var z := a.z - p.y * 0.8;
    if phase == Pre then
      Vec3(x + w.shakeX * CameraJitter, y + w.shakeY * CameraJitter * 0.9, z + w.shakeZ * CameraJitter * 0.5)
    else
      Vec3(x, y, z)
  }

  /** The point the camera looks at this frame: the scene's look-at point
      moved by the pointer, plus a shake in the `pre` phase. */
  function LookAtPoint(s: SceneState, p: Pointer, phase: TransitionPhase, w: FrameWaves): Vec3
  {
    var a := CameraAnchor(s).lookAt;
    var x := a.x + p.x * 0.2;
    var y := a.y + -p.y * 0.2;
    if phase == Pre then
      Vec3(x + w.lookX * CameraJitter, y + w.lookY * CameraJitter * 0.8, a.z)
    else
      Vec3(x, y, a.z)
  }

  /** With the pointer centred and no shake, the camera is pulled to the
      scene's anchor and looks at the anchor's point. */
  lemma CameraRestsAtAnchor(s: SceneState, phase: TransitionPhase, w: FrameWaves)
    requires phase != Pre
    ensures CameraBase(s, Pointer(0.0, 0.0), phase, w) == CameraAnchor(s).position
    ensures LookAtPoint(s, Pointer(0.0, 0.0), phase, w) == CameraAnchor(s).lookAt
  {
  }

  /** The shake is added only in the `pre` phase, and every component of it
      is at most 0.04 in size: 0.04, 0.036 and 0.02 for the camera, 0.04 and
      0.032 for the look-at point. */
  lemma JitterOnlyInPreAndBounded(s: SceneState, p: Pointer, phase: TransitionPhase, w: FrameWaves)
    requires WavesInRange(w)
    ensures phase != Pre ==> CameraBase(s, p, phase, w) == CameraBase(s, p, Idle, w)
    ensures phase != Pre ==> LookAtPoint(s, p, phase, w) == LookAtPoint(s, p, Idle, w)
    ensures Abs(CameraBase(s, p, phase, w).x - CameraBase(s, p, Idle, w).x) <= 0.04
    ensures Abs(CameraBase(s, p, phase, w).y - CameraBase(s, p, Idle, w).y) <= 0.036
    ensures Abs(CameraBase(s, p, phase, w).z - CameraBase(s, p, Idle, w).z) <= 0.02
    ensures Abs(LookAtPoint(s, p, phase, w).x - LookAtPoint(s, p, Idle, w).x) <= 0.04
    ensures Abs(LookAtPoint(s, p, phase, w).y - LookAtPoint(s, p, Idle, w).y) <= 0.032
    ensures LookAtPoint(s, p, phase, w).z == CameraAnchor(s).lookAt.z
  {
  }

  /** Component-wise closeness of two points. */
  predicate Within(a: Vec3, b: Vec3, d: real)
  {
    Abs(a.x - b.x) <= d && Abs(a.y - b.y) <= d && Abs(a.z - b.z) <= d
  }

  /** The shake never accumulates: the smoothed camera target of a shaking
      camera stays within 0.04 of where a calm camera's would be, frame after
      frame, because each frame only mixes the old gap with the new one. */
  lemma JitterDoesNotAccumulate(target: Vec3, calmTarget: Vec3, s: SceneState, p: Pointer, phase: TransitionPhase, w: FrameWaves)
    requires WavesInRange(w) && Within(target, calmTarget, CameraJitter)
    ensures Within(LerpVec3(target, CameraBase(s, p, phase, w), 0.08),
                   LerpVec3(calmTarget, CameraBase(s, p, Idle, w), 0.08), CameraJitter)
  {
    JitterOnlyInPreAndBounded(s, p, phase, w);
    var b, c := CameraBase(s, p, phase, w), CameraBase(s, p, Idle, w);
    LerpKeepsDistance(target.x, calmTarget.x, b.x, c.x, 0.08, CameraJitter);
    LerpKeepsDistance(target.y, calmTarget.y, b.y, c.y, 0.08, CameraJitter);
    LerpKeepsDistance(target.z, calmTarget.z, b.z, c.z, 0.08, CameraJitter);
  }

  // ---------------------------------------------------------------------
  // Vertex targets

  /** The geometry the vertex loop reads: base positions and normals of the
      icosahedron, and the about-scene fragment targets and contact-scene
      plane targets, three entries per vertex. */
  datatype Geometry = Geometry(
    base: seq<real>, normals: seq<real>, fragment: seq<real>, plane: seq<real>, vertexCount: nat)

  predicate ValidGeometry(g: Geometry)
  {
    |g.base| == 3 * g.vertexCount && |g.normals| == 3 * g.vertexCount
    && |g.fragment| == 3 * g.vertexCount && |g.plane| == 3 * g.vertexCount
  }

  function At(buffer: seq<real>, i: nat): Vec3
    requires 3 * i + 2 < |buffer|
  {
    Vec3(buffer[3 * i], buffer[3 * i + 1], buffer[3 * i + 2])
  }

  function MagSq(v: Vec3): real
  {
    v.x * v.x + v.y * v.y + v.z * v.z
  }

  function Scale(v: Vec3, c: real): Vec3
  {
    Vec3(v.x * c, v.y * c, v.z * c)
  }

  const HomeRadius: real := 3.6

  /** The home scene's breathing blob before clamping: the base position
      displaced by the two noise samples and swirled by the flow wave. */
  function HomeRaw(b: Vec3, s: VertexSamples, w: FrameWaves): Vec3
  {
    var pulse := 0.25 + w.pulse * 0.1;
    var flow := w.flow * 0.5;
    var displacement := 1.0 + s.noise * (0.38 + pulse) + s.secondary * 0.22;
    var swirl := flow * 0.18;
    Vec3(b.x * displacement + (-b.y * swirl + s.noise * 0.22),
         b.y * displacement + (b.x * swirl + s.secondary * 0.2),
         b.z * displacement + (s.noise - s.secondary) * 0.16)
  }

  /** Rescales `t`, whose length is `mag`, to length 3.6 when it is longer. */
  function ClampMagnitude(t: Vec3, mag: real): Vec3
    requires mag >= 0.0
  {
    if mag > HomeRadius then Scale(t, HomeRadius / mag) else t
  }

  lemma ScaleMagSq(v: Vec3, c: real)
    ensures MagSq(Scale(v, c)) == (c * c) * MagSq(v)
  {
    assert (v.x * c) * (v.x * c) == (c * c) * (v.x * v.x);
    assert (v.y * c) * (v.y * c) == (c * c) * (v.y * v.y);
    assert (v.z * c) * (v.z * c) == (c * c) * (v.z * v.z);
  }

  lemma SquareBelow(m: real, bound: real)
    requires 0.0 <= m <= bound
    ensures m * m <= bound * bound
  {
    MulMono(m, m, bound);
    MulMono(bound, m, bound);
  }

  lemma RescaledSquare(m: real)
    requires m > HomeRadius
    ensures ((HomeRadius / m) * (HomeRadius / m)) * (m * m) == HomeRadius * HomeRadius
  {
    var c := HomeRadius / m;
    assert c * m == HomeRadius;
    assert (c * c) * (m * m) == (c * m) * (c * m);
  }

  /** The home target never leaves the ball of radius 3.6: a longer target is
      rescaled onto its surface, a shorter one is kept as it is. Here `m` is
      the length the square root gives. */
  lemma HomeTargetWithinRadius(t: Vec3, m: real)
    requires m >= 0.0 && m * m == MagSq(t)
    ensures MagSq(ClampMagnitude(t, m)) <= HomeRadius * HomeRadius
    ensures m > HomeRadius ==> MagSq(ClampMagnitude(t, m)) == HomeRadius * HomeRadius
    ensures m <= HomeRadius ==> ClampMagnitude(t, m) == t
  {
    if m > HomeRadius {
      ScaleMagSq(t, HomeRadius / m);
      RescaledSquare(m);
    } else {
      SquareBelow(m, HomeRadius);
    }
  }

  /** The about scene's fragments: the exploded position pushed along the
      normal by a drift of at most 0.39 normals. */
  function AboutTarget(fragment: Vec3, normal: Vec3, s: VertexSamples): Vec3
  {
    var drift := s.drift * 0.65;
    Vec3(Drifted(fragment.x, normal.x, drift), Drifted(fragment.y, normal.y, drift), Drifted(fragment.z, normal.z, drift))
  }

  /** One coordinate of a fragment pushed along its normal. */
  function Drifted(c: real, n: real, drift: real): real
  {
    c + n * 0.6 * drift
  }

  /** One coordinate of the about-scene drift. */
  lemma DriftBound(c: real, n: real, drift: real)
    requires Unit(drift)
    ensures Abs(Drifted(c, n, drift * 0.65) - c) <= 0.39 * Abs(n)
  {
    AbsScaleDown(n * 0.39, drift);
    assert n * 0.6 * (drift * 0.65) == (n * 0.39) * drift;
  }

  /** About targets stay within 0.39 normal lengths of the fragment. */
  lemma AboutTargetNearFragment(fragment: Vec3, normal: Vec3, s: VertexSamples)
    requires SamplesInRange(s)
    ensures Abs(AboutTarget(fragment, normal, s).x - fragment.x) <= 0.39 * Abs(normal.x)
    ensures Abs(AboutTarget(fragment, normal, s).y - fragment.y) <= 0.39 * Abs(normal.y)
    ensures Abs(AboutTarget(fragment, normal, s).z - fragment.z) <= 0.39 * Abs(normal.z)
  {
    DriftBound(fragment.x, normal.x, s.drift);
    DriftBound(fragment.y, normal.y, s.drift);
    DriftBound(fragment.z, normal.z, s.drift);
  }

  /** The projects scene's lattice, wobbling by the three waves. */
  function ProjectsTarget(lattice: Vec3, s: VertexSamples): Vec3
  {
    Vec3(lattice.x + s.latticeX * 0.32, lattice.y + s.latticeY * 0.7, lattice.z + s.latticeZ * 0.32)
  }

  /** Projects targets stay within (0.32, 0.7, 0.32) of the lattice point. */
  lemma ProjectsTargetNearLattice(lattice: Vec3, s: VertexSamples)
    requires SamplesInRange(s)
    ensures Abs(ProjectsTarget(lattice, s).x - lattice.x) <= 0.32
    ensures Abs(ProjectsTarget(lattice, s).y - lattice.y) <= 0.7
    ensures Abs(ProjectsTarget(lattice, s).z - lattice.z) <= 0.32
  {
  }

  /** The contact scene's portal plane, rippling by the three waves. */
  function ContactTarget(plane: Vec3, s: VertexSamples): Vec3
  {
    Vec3(plane.x + s.planeX * 0.28, plane.y + s.ripple * 0.35, plane.z + s.planeZ * 0.24)
  }

  /** Contact targets stay within (0.28, 0.35, 0.24) of the plane point. */
  lemma ContactTargetNearPlane(plane: Vec3, s: VertexSamples)
    requires SamplesInRange(s)
    ensures Abs(ContactTarget(plane, s).x - plane.x) <= 0.28
    ensures Abs(ContactTarget(plane, s).y - plane.y) <= 0.35
    ensures Abs(ContactTarget(plane, s).z - plane.z) <= 0.24
  {
  }

  /** The target of vertex `i` in the frame's scene. */
  function VertexTarget(g: Geometry, lattice: seq<real>, f: FrameInput, i: nat): Vec3
    requires ValidGeometry(g) && |lattice| == 3 * g.vertexCount && i < g.vertexCount
  {
    var s := f.samples(i);
    match f.state
    case Home =>
      var raw := HomeRaw(At(g.base, i), s, f.waves);
      var mag := f.root(MagSq(raw));
      // `Math.sqrt` is never negative, so for a real square root this guard
      // always holds; it only keeps the abstract `root` within the domain of
      // `ClampMagnitude`.
      if mag >= 0.0 then ClampMagnitude(raw, mag) else raw
    case About => AboutTarget(At(g.fragment, i), At(g.normals, i), s)
    case Projects => ProjectsTarget(At(lattice, i), s)
    case Contact => ContactTarget(At(g.plane, i), s)
  }

  /** With an exact square root, every home-scene target lies in the ball of
      radius 3.6. */
  lemma HomeVertexTargetInBall(g: Geometry, lattice: seq<real>, f: FrameInput, i: nat)
    requires ValidGeometry(g) && |lattice| == 3 * g.vertexCount && i < g.vertexCount
    requires f.state == Home
    requires forall v: real :: v >= 0.0 ==> f.root(v) >= 0.0 && f.root(v) * f.root(v) == v
    ensures MagSq(VertexTarget(g, lattice, f, i)) <= HomeRadius * HomeRadius
  {
    var raw := HomeRaw(At(g.base, i), f.samples(i), f.waves);
    assert MagSq(raw) >= 0.0;
    HomeTargetWithinRadius(raw, f.root(MagSq(raw)));
  }

  // ---------------------------------------------------------------------
  // Per-frame smoothing of the animated values

  /** The material colours, light colours and intensities, background and
      fog that the frame smooths toward the scene's palette. */
  datatype Lights = Lights(
    baseColor: Color, emissiveColor: Color, keyColor: Color, rimColor: Color,
    keyIntensity: real, rimIntensity: real, background: Color, fogColor: Color, fogDensity: real)

  predicate LightsInRange(l: Lights)
  {
    UnitColor(l.baseColor) && UnitColor(l.emissiveColor) && UnitColor(l.keyColor) && UnitColor(l.rimColor)
    && UnitColor(l.background) && UnitColor(l.fogColor)
    && MinKeyIntensity <= l.keyIntensity <= MaxKeyIntensity
    && MinRimIntensity <= l.rimIntensity <= MaxRimIntensity
    && MinFogDensity <= l.fogDensity <= MaxFogDensity
  }

  /** One frame of light smoothing toward the targets `t`; the fog colour
      follows the already smoothed background. */
  function StepLights(l: Lights, t: Palette, s: SceneState): Lights
  {
    var background := LerpColor(l.background, t.background, 0.04);
    Lights(
      LerpColor(l.baseColor, t.base, 0.05),
      LerpColor(l.emissiveColor, t.emissive, 0.06),
      LerpColor(l.keyColor, t.key, 0.08),
      LerpColor(l.rimColor, t.rim, 0.08),
      Lerp(l.keyIntensity, KeyIntensityTarget(s), 0.05),
      Lerp(l.rimIntensity, RimIntensityTarget(s), 0.05),
      background,
      LerpColor(l.fogColor, background, 0.08),
      Lerp(l.fogDensity, t.fogDensity, 0.03))
  }

  /** Light smoothing keeps every colour a colour and every intensity and
      density within the range of the tables. */
  lemma StepLightsInRange(l: Lights, t: Palette, s: SceneState)
    requires LightsInRange(l) && ValidPalette(t)
    ensures LightsInRange(StepLights(l, t, s))
  {
    LerpColorStaysUnit(l.baseColor, t.base, 0.05);
    LerpColorStaysUnit(l.emissiveColor, t.emissive, 0.06);
    LerpColorStaysUnit(l.keyColor, t.key, 0.08);
    LerpColorStaysUnit(l.rimColor, t.rim, 0.08);
    LerpStaysIn(l.keyIntensity, KeyIntensityTarget(s), 0.05, MinKeyIntensity, MaxKeyIntensity);
    LerpStaysIn(l.rimIntensity, RimIntensityTarget(s), 0.05, MinRimIntensity, MaxRimIntensity);
    var background := LerpColor(l.background, t.background, 0.04);
    LerpColorStaysUnit(l.background, t.background, 0.04);
    LerpColorStaysUnit(l.fogColor, background, 0.08);
    LerpStaysIn(l.fogDensity, t.fogDensity, 0.03, MinFogDensity, MaxFogDensity);
  }

  /** Every light value closes its gap to its target by its own rate: the
      key and rim intensities keep 95%, the fog density 97%. */
  lemma StepLightsClosesGaps(l: Lights, t: Palette, s: SceneState)
    ensures KeyIntensityTarget(s) - StepLights(l, t, s).keyIntensity == 0.95 * (KeyIntensityTarget(s) - l.keyIntensity)
    ensures RimIntensityTarget(s) - StepLights(l, t, s).rimIntensity == 0.95 * (RimIntensityTarget(s) - l.rimIntensity)
    ensures t.fogDensity - StepLights(l, t, s).fogDensity == 0.97 * (t.fogDensity - l.fogDensity)
  {
    LerpGap(l.keyIntensity, KeyIntensityTarget(s), 0.05);
    LerpGap(l.rimIntensity, RimIntensityTarget(s), 0.05);
    LerpGap(l.fogDensity, t.fogDensity, 0.03);
  }

  /** The projects grid and the contact portal. */
  datatype Gates = Gates(gridVisible: bool, gridOpacity: real, portalAlpha: real, portalScale: Vec3)

  predicate GatesInRange(g: Gates)
  {
    0.0 <= g.gridOpacity <= 0.22 && 0.0 <= g.portalAlpha <= 0.65
    && 0.01 <= g.portalScale.x <= 1.0 && 0.01 <= g.portalScale.y <= 1.0 && 0.01 <= g.portalScale.z <= 1.0
  }

  /** One frame of the gates: the grid is shown on projects only, and the
      grid opacity, portal alpha and portal scale ease toward their gates. */
  function StepGates(g: Gates, s: SceneState): Gates
  {
    var scale := PortalScaleTarget(s);
    Gates(GridVisible(s),
          Lerp(g.gridOpacity, GridOpacityTarget(s), 0.08),
          Lerp(g.portalAlpha, PortalAlphaTarget(s), 0.06),
          LerpVec3(g.portalScale, Vec3(scale, scale, scale), 0.08))
  }

  /** The gates stay between their two targets. */
  lemma StepGatesInRange(g: Gates, s: SceneState)
    requires GatesInRange(g)
    ensures GatesInRange(StepGates(g, s))
  {
    var scale := PortalScaleTarget(s);
    LerpStaysIn(g.gridOpacity, GridOpacityTarget(s), 0.08, 0.0, 0.22);
    LerpStaysIn(g.portalAlpha, PortalAlphaTarget(s), 0.06, 0.0, 0.65);
    LerpStaysIn(g.portalScale.x, scale, 0.08, 0.01, 1.0);
    LerpStaysIn(g.portalScale.y, scale, 0.08, 0.01, 1.0);
    LerpStaysIn(g.portalScale.z, scale, 0.08, 0.01, 1.0);
  }

  /** The gates after `n` frames in one scene. */
  function GatesAfter(g: Gates, s: SceneState, n: nat): Gates
  {
    if n == 0 then g else StepGates(GatesAfter(g, s, n - 1), s)
  }

  /** Over `n` frames in one scene, the grid opacity and portal alpha follow
      the repeated smoothing step toward their gates. */
  lemma {:induction false} GatesAfterIsSmoothing(g: Gates, s: SceneState, n: nat)
    ensures GatesAfter(g, s, n).gridOpacity == SmoothN(g.gridOpacity, GridOpacityTarget(s), 0.08, n)
    ensures GatesAfter(g, s, n).portalAlpha == SmoothN(g.portalAlpha, PortalAlphaTarget(s), 0.06, n)
  {
    if n > 0 {
      GatesAfterIsSmoothing(g, s, n - 1);
    }
  }

  /** Away from the projects scene the grid fades out: after `n` frames its
      opacity is at most `0.22 / (1 + 0.08 n)`. */
  lemma GridFadesOut(g: Gates, s: SceneState, n: nat)
    requires GatesInRange(g) && s != Projects
    ensures GatesAfter(g, s, n).gridOpacity * (1.0 + (n as real) * 0.08) <= 0.22
  {
    GatesAfterIsSmoothing(g, s, n);
    SmoothNConverges(g.gridOpacity, 0.0, 0.08, n);
    SmoothNMonotone(g.gridOpacity, 0.0, 0.08, n);
  }

  /** Away from the contact scene the portal fades out: after `n` frames its
      alpha is at most `0.65 / (1 + 0.06 n)`. */
  lemma PortalFadesOut(g: Gates, s: SceneState, n: nat)
    requires GatesInRange(g) && s != Contact
    ensures GatesAfter(g, s, n).portalAlpha * (1.0 + (n as real) * 0.06) <= 0.65
  {
    GatesAfterIsSmoothing(g, s, n);
    SmoothNConverges(g.portalAlpha, 0.0, 0.06, n);
    SmoothNMonotone(g.portalAlpha, 0.0, 0.06, n);
  }

  /** The camera's smoothed target, its position and the point it looks at. */
  datatype CameraRig = CameraRig(target: Vec3, position: Vec3, lookAt: Vec3)

  /** One frame of camera motion: the target eases toward the pointer-moved
      (and, in `pre`, shaken) anchor, the camera eases toward the new target,
      and the look-at point is set outright, not smoothed. */
  function StepCamera(c: CameraRig, f: FrameInput): CameraRig
  {
    var target := LerpVec3(c.target, CameraBase(f.state, f.pointer, f.phase, f.waves), 0.08);
    CameraRig(target, LerpVec3(c.position, target, 0.1), LookAtPoint(f.state, f.pointer, f.phase, f.waves))
  }

  /** A camera resting at its scene's anchor stays there while the pointer
      is centred and nothing shakes. */
  lemma CameraRestIsFixed(c: CameraRig, f: FrameInput)
    requires f.pointer == Pointer(0.0, 0.0) && f.phase != Pre
    requires c.target == CameraAnchor(f.state).position && c.position == c.target
    ensures StepCamera(c, f) == CameraRig(c.target, c.position, CameraAnchor(f.state).lookAt)
  {
    CameraRestsAtAnchor(f.state, f.phase, f.waves);
  }

  /** The values the end of a frame writes: the normal-recomputation counter,
      the emissive intensity, the metric-driven star and glitch values, the
      shader clock and the star field's rotation. */
  datatype FrameTail = FrameTail(
    normalFrame: nat, normalUpdates: nat, emissiveIntensity: real,
    starSize: real, starOpacity: real, glitchIntensity: real,
    shaderTime: real, starRotationX: real, starRotationY: real)

  predicate TailInRange(p: FrameTail)
  {
    MinEmissiveIntensity <= p.emissiveIntensity <= MaxEmissiveIntensity
    && MinStarSize <= p.starSize <= MaxStarSize
    && MinStarOpacity <= p.starOpacity <= MaxStarOpacity
    && MinGlitchIntensity <= p.glitchIntensity <= MaxGlitchIntensity
    && p.normalUpdates == (p.normalFrame + 1) / 2
  }

  /** The end of a frame: normals are recomputed when the frame counter was
      even, the emissive intensity pulses, the star and glitch values ease
      toward their metric targets, both shader clocks are set to the elapsed
      time and the star field turns a little. */
  function StepTail(p: FrameTail, f: FrameInput): FrameTail
    requires Unit(f.waves.glow)
  {
    FrameTail(p.normalFrame + 1,
          p.normalUpdates + (if p.normalFrame % 2 == 0 then 1 else 0),
          EmissiveIntensity(f.state, f.waves.glow),
          Lerp(p.starSize, StarSizeTarget(f.metrics), 0.08),
          Lerp(p.starOpacity, StarOpacityTarget(f.metrics), 0.08),
          Lerp(p.glitchIntensity, GlitchIntensityTarget(f.metrics, f.phase), 0.12),
          f.elapsed,
          p.starRotationX + 0.0003,
          p.starRotationY + 0.00045)
  }

  /** The metric-driven values stay in their target ranges whatever the
      metrics, and normals stay recomputed on exactly the even frames. */
  lemma StepTailInRange(p: FrameTail, f: FrameInput)
    requires TailInRange(p) && Unit(f.waves.glow)
    ensures TailInRange(StepTail(p, f))
  {
    LerpStaysIn(p.starSize, StarSizeTarget(f.metrics), 0.08, MinStarSize, MaxStarSize);
    LerpStaysIn(p.starOpacity, StarOpacityTarget(f.metrics), 0.08, MinStarOpacity, MaxStarOpacity);
    LerpStaysIn(p.glitchIntensity, GlitchIntensityTarget(f.metrics, f.phase), 0.12, MinGlitchIntensity, MaxGlitchIntensity);
  }

  // ---------------------------------------------------------------------
  // The engine

  /** The state the frame callback keeps between frames. */
  class Engine {
    const geometry: Geometry
    /** The projects-scene lattice, filled once at setup. */
    const lattice: seq<real>
    /** The live vertex position buffer, eased in place every frame. */
    const positions: array<real>

    /** The scene whose palette the targets were last copied from. */
    var previousScene: SceneState
    /** The colour and fog-density targets and the material's transmission,
        metalness and roughness, all copied from one palette. */
    var targets: Palette
    var lights: Lights
    var gates: Gates
    var camera: CameraRig
    var tail: FrameTail

    /** The buffers have matching sizes and the lattice is the snapped base. */
    ghost predicate BuffersValid()
    {
      ValidGeometry(geometry) && |lattice| == 3 * geometry.vertexCount
      && positions.Length == 3 * geometry.vertexCount
      && forall k :: 0 <= k < |lattice| ==> lattice[k] == LatticeEntry(geometry.base, k)
    }

    ghost predicate Valid()
      reads this
    {
      BuffersValid() && targets == PaletteOf(previousScene)
      && LightsInRange(lights) && GatesInRange(gates) && TailInRange(tail)
    }

    /** Setup: lights, material, fog and camera start from the initial
        scene's palette and anchor, the grid and portal start hidden, the
        position buffer starts as the base positions and the lattice is
        snapped from them. */
    constructor (initial: SceneState, g: Geometry)
      requires ValidGeometry(g)
      ensures Valid()
      ensures geometry == g && previousScene == initial && fresh(positions)
      ensures positions[..] == g.base
      ensures lights == Lights(PaletteOf(initial).base, PaletteOf(initial).emissive, PaletteOf(initial).key,
        PaletteOf(initial).rim, 0.7, 1.8, PaletteOf(initial).background, PaletteOf(initial).background,
        PaletteOf(initial).fogDensity)
      ensures gates == Gates(false, 0.0, 0.0, Vec3(0.01, 0.01, 0.01))
      ensures camera == CameraRig(CameraAnchor(initial).position, CameraAnchor(initial).position, CameraAnchor(initial).lookAt)
      ensures tail == FrameTail(0, 0, 0.36, 0.08, 0.82, 0.52, 0.0, 0.0, 0.0)
    {
      var p := PaletteOf(initial);
      var built := BuildLattice(g.base, g.vertexCount);
      geometry := g;
      lattice := built[..];
      positions := new real[|g.base|](k requires 0 <= k < |g.base| => g.base[k]);
      previousScene, targets := initial, p;
      lights := Lights(p.base, p.emissive, p.key, p.rim, 0.7, 1.8, p.background, p.background, p.fogDensity);
      gates := Gates(false, 0.0, 0.0, Vec3(0.01, 0.01, 0.01));
      camera := CameraRig(CameraAnchor(initial).position, CameraAnchor(initial).position, CameraAnchor(initial).lookAt);
      tail := FrameTail(0, 0, 0.36, 0.08, 0.82, 0.52, 0.0, 0.0, 0.0);
    }

    /** When the scene differs from the last one seen, the targets and the
        material scalars are taken from the new scene's palette and the scene
        is remembered; otherwise nothing changes. */
    method Retarget(s: SceneState)
      requires targets == PaletteOf(previousScene)
      modifies this`previousScene, this`targets
      ensures targets == PaletteOf(previousScene) && previousScene == s
      ensures old(previousScene) == s ==> targets == old(targets)
      ensures old(previousScene) != s ==> targets == PaletteOf(s)
    {
      if s != previousScene {
        targets := PaletteOf(s);
        previousScene := s;
      }
    }

    /** The easing step of the per-vertex loop: the three entries of the
        vertex at `index` move toward `target` by `ease`; no other entry
        changes. */
    method EaseVertex(index: nat, target: Vec3, ease: real)
      requires index + 3 <= positions.Length
      modifies positions
      ensures positions[index] == Lerp(old(positions[index]), target.x, ease)
      ensures positions[index + 1] == Lerp(old(positions[index + 1]), target.y, ease)
      ensures positions[index + 2] == Lerp(old(positions[index + 2]), target.z, ease)
      ensures forall k :: 0 <= k < positions.Length && (k < index || index + 3 <= k) ==> positions[k] == old(positions[k])
    {
      var currentX, currentY, currentZ := positions[index], positions[index + 1], positions[index + 2];
      positions[index] := currentX + (target.x - currentX) * ease;
      positions[index + 1] := currentY + (target.y - currentY) * ease;
      positions[index + 2] := currentZ + (target.z - currentZ) * ease;
    }

    /** The per-vertex loop: the three coordinates of every vertex move
        toward the vertex's target by the scene's ease rate. */
    method EaseVertices(f: FrameInput)
      requires BuffersValid()
      modifies positions
      ensures forall j :: 0 <= j < geometry.vertexCount ==>
        positions[3 * j] == Lerp(old(positions[3 * j]), VertexTarget(geometry, lattice, f, j).x, Ease(f.state))
        && positions[3 * j + 1] == Lerp(old(positions[3 * j + 1]), VertexTarget(geometry, lattice, f, j).y, Ease(f.state))
        && positions[3 * j + 2] == Lerp(old(positions[3 * j + 2]), VertexTarget(geometry, lattice, f, j).z, Ease(f.state))
    {
      var ease := Ease(f.state);
      var i := 0;
      while i < geometry.vertexCount
        invariant 0 <= i <= geometry.vertexCount
        invariant forall j :: 0 <= j < i ==>
          positions[3 * j] == Lerp(old(positions[3 * j]), VertexTarget(geometry, lattice, f, j).x, ease)
          && positions[3 * j + 1] == Lerp(old(positions[3 * j + 1]), VertexTarget(geometry, lattice, f, j).y, ease)
          && positions[3 * j + 2] == Lerp(old(positions[3 * j + 2]), VertexTarget(geometry, lattice, f, j).z, ease)
        invariant forall k :: 3 * i <= k < positions.Length ==> positions[k] == old(positions[k])
      {
        var target := VertexTarget(geometry, lattice, f, i);
        EaseVertex(i * 3, target, ease);
        i := i + 1;
      }
    }

    /** One frame. A hidden tab changes nothing; otherwise the frame
        retargets on a scene change, smooths the lights, gates, camera and
        metric-driven values one step and eases every vertex. */
    method Animate(f: FrameInput)
      requires Valid() && Unit(f.waves.glow)
      modifies this, positions
      ensures Valid()
      ensures f.hidden ==> unchanged(this) && unchanged(positions)
      ensures !f.hidden ==> previousScene == f.state && targets == PaletteOf(f.state)
      ensures !f.hidden ==> lights == StepLights(old(lights), PaletteOf(f.state), f.state)
      ensures !f.hidden ==> gates == StepGates(old(gates), f.state)
      ensures !f.hidden ==> camera == StepCamera(old(camera), f)
      ensures !f.hidden ==> tail == StepTail(old(tail), f)
      ensures !f.hidden ==> forall j :: 0 <= j < geometry.vertexCount ==>
        positions[3 * j] == Lerp(old(positions[3 * j]), VertexTarget(geometry, lattice, f, j).x, Ease(f.state))
        && positions[3 * j + 1] == Lerp(old(positions[3 * j + 1]), VertexTarget(geometry, lattice, f, j).y, Ease(f.state))
        && positions[3 * j + 2] == Lerp(old(positions[3 * j + 2]), VertexTarget(geometry, lattice, f, j).z, Ease(f.state))
    {
      if f.hidden {
        return;
      }
      Retarget(f.state);
      StepLightsInRange(lights, targets, f.state);
      lights := StepLights(lights, targets, f.state);
      StepGatesInRange(gates, f.state);
      gates := StepGates(gates, f.state);
      camera := StepCamera(camera, f);
      EaseVertices(f);
      StepTailInRange(tail, f);
      tail := StepTail(tail, f);
    }
  }

}
