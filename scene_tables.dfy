/** The per-scene constant tables of components/InteractiveScene.tsx: camera
    anchors, colour palettes, pointer influence, vertex ease, light
    intensity targets, emissive pulse and the projects/contact visibility
    gates. Every table is a total lookup over the four scene tags. */
module SceneTables {
  import opened SceneController
  import opened Smoothing
  import TransitionProvider

  datatype Vec3 = Vec3(x: real, y: real, z: real)

  /** An RGB colour, one real per channel. */
  datatype Color = Color(r: real, g: real, b: real)

  predicate UnitColor(c: Color)
  {
    0.0 <= c.r <= 1.0 && 0.0 <= c.g <= 1.0 && 0.0 <= c.b <= 1.0
  }

  /** A `#rrggbb` literal, given as its three bytes, as channel values in [0, 1]. */
  function Rgb(r: nat, g: nat, b: nat): (c: Color)
    requires r < 0x100 && g < 0x100 && b < 0x100
    ensures UnitColor(c)
    ensures r == 0 && g == 0 && b == 0 ==> c == Color(0.0, 0.0, 0.0)
    ensures r == 0xff && g == 0xff && b == 0xff ==> c == Color(1.0, 1.0, 1.0)
  {
    Color(r as real / 255.0, g as real / 255.0, b as real / 255.0)
  }

  datatype Anchor = Anchor(position: Vec3, lookAt: Vec3)

  /** `CAMERA_ANCHORS`: where the camera rests and what it looks at. */
  function CameraAnchor(s: SceneState): (a: Anchor)
    ensures a.position.z > a.lookAt.z
  {
    match s
    case Home => Anchor(Vec3(0.0, 0.6, 14.0), Vec3(0.0, 0.2, 0.0))
    case About => Anchor(Vec3(0.0, 0.25, 6.2), Vec3(0.0, 0.4, 0.0))
    case Projects => Anchor(Vec3(1.15, 0.65, 10.6), Vec3(0.6, 0.0, 0.0))
    case Contact => Anchor(Vec3(-0.3, -0.05, 8.8), Vec3(0.0, -0.3, 0.0))
  }

  /** The camera rests farther back the higher a scene's rank, so an
      exploding transition (to a lower rank) always moves the camera in. */
  lemma AnchorDepthFollowsRank(s: SceneState, s': SceneState)
    ensures TransitionProvider.SceneRank(s) < TransitionProvider.SceneRank(s')
        <==> CameraAnchor(s).position.z < CameraAnchor(s').position.z
    ensures TransitionProvider.ShouldExplode(s, s') ==> CameraAnchor(s').position.z < CameraAnchor(s).position.z
  {
  }

  datatype Palette = Palette(
    base: Color, emissive: Color, key: Color, rim: Color, background: Color,
    transmission: real, metalness: real, roughness: real, fogDensity: real)

  predicate ValidPalette(p: Palette)
  {
    UnitColor(p.base) && UnitColor(p.emissive) && UnitColor(p.key) && UnitColor(p.rim) && UnitColor(p.background)
    && 0.0 <= p.transmission <= 1.0 && 0.0 <= p.metalness <= 1.0 && 0.0 <= p.roughness <= 1.0
    && MinFogDensity <= p.fogDensity <= MaxFogDensity
  }

  const MinFogDensity: real := 0.028
  const MaxFogDensity: real := 0.045

  /** `PALETTES`: the colours and material scalars of each scene. */
  function PaletteOf(s: SceneState): (p: Palette)
    ensures ValidPalette(p)
  {
    match s
    case Home => Palette(Rgb(0x5b, 0x74, 0xff), Rgb(0x23, 0x36, 0xff), Rgb(0x76, 0xf4, 0xff), Rgb(0xff, 0x70, 0xd7), Rgb(0x05, 0x06, 0x0f), 0.52, 0.58, 0.18, 0.045)
    case About => Palette(Rgb(0xd9, 0x5a, 0xa6), Rgb(0xa5, 0x1f, 0x5d), Rgb(0xff, 0x9b, 0xd1), Rgb(0x6b, 0x9b, 0xff), Rgb(0x17, 0x03, 0x11), 0.42, 0.42, 0.28, 0.032)
    case Projects => Palette(Rgb(0x45, 0xd3, 0xbe), Rgb(0x08, 0x8b, 0xb0), Rgb(0x72, 0xff, 0xe6), Rgb(0x3b, 0x6f, 0xff), Rgb(0x00, 0x14, 0x1b), 0.48, 0.64, 0.16, 0.04)
    case Contact => Palette(Rgb(0xc9, 0xd2, 0x4d), Rgb(0xb9, 0x7a, 0x2a), Rgb(0xff, 0xe0, 0x7d), Rgb(0xff, 0x7a, 0xdf), Rgb(0x16, 0x10, 0x00), 0.36, 0.44, 0.24, 0.028)
  }

  /** Each scene has its own fog density, so the table tells the scenes apart. */
  lemma FogDensityIdentifiesScene(s: SceneState, s': SceneState)
    ensures PaletteOf(s).fogDensity == PaletteOf(s').fogDensity <==> s == s'
  {
  }

  /** How far the pointer pulls the camera sideways in each scene. */
  function Influence(s: SceneState): (r: real)
    ensures 1.1 <= r <= 1.8
    ensures r == 1.8 <==> s == Home
  {
    match s
    case Home => 1.8
    case About => 1.2
    case Projects => 1.5
    case Contact => 1.1
  }

  /** The rate at which every vertex eases toward its target. */
  function Ease(s: SceneState): (r: real)
    ensures 0.0 < r < 1.0
    ensures s == Home ==> r == 0.09
    ensures s == About ==> r == 0.065
    ensures s == Projects || s == Contact ==> r == 0.06
  {
    match s
    case Home => 0.09
    case About => 0.065
    case Projects => 0.06
    case Contact => 0.06
  }

  /** Home eases fastest; projects and contact share the slowest rate. */
  lemma EaseOrder(s: SceneState)
    ensures Ease(Contact) <= Ease(s) <= Ease(Home)
    ensures Ease(s) == Ease(Home) <==> s == Home
  {
  }

  const MinKeyIntensity: real := 0.62
  const MaxKeyIntensity: real := 0.78
  const MinRimIntensity: real := 1.4
  const MaxRimIntensity: real := 1.8

  /** The key light's intensity target. */
  function KeyIntensityTarget(s: SceneState): (r: real)
    ensures MinKeyIntensity <= r <= MaxKeyIntensity
    ensures r == MaxKeyIntensity <==> s == Projects
    ensures r == MinKeyIntensity <==> s == Contact
  {
    if s == Projects then 0.78 else if s == Contact then 0.62 else if s == About then 0.68 else 0.7
  }

  /** The rim light's intensity target. */
  function RimIntensityTarget(s: SceneState): (r: real)
    ensures MinRimIntensity <= r <= MaxRimIntensity
    ensures r == MaxRimIntensity <==> s == Projects
    ensures r == MinRimIntensity <==> s == About
  {
    if s == About then 1.4 else if s == Projects then 1.8 else if s == Contact then 1.55 else 1.6
  }

  const MinEmissiveIntensity: real := 0.17
  const MaxEmissiveIntensity: real := 0.39

  /** The emissive intensity of a frame: a base plus a pulse of the wave
      `wave` in [-1, 1]; home glows brighter and pulses more. */
  function EmissiveIntensity(s: SceneState, wave: real): (r: real)
    requires -1.0 <= wave <= 1.0
    ensures MinEmissiveIntensity <= r <= MaxEmissiveIntensity
    ensures s == Home ==> 0.25 <= r <= 0.39
    ensures s != Home ==> 0.17 <= r <= 0.27
  {
    var base := if s == Home then 0.32 else 0.22;
    var amp := if s == Home then 0.07 else 0.05;
    base + wave * amp
  }

  /** The grid of lines is shown on the projects scene only. */
  function GridVisible(s: SceneState): bool
  {
    s == Projects
  }

  /** The grid's opacity target: 0.22 where it is shown, 0 elsewhere. */
  function GridOpacityTarget(s: SceneState): (r: real)
    ensures 0.0 <= r <= 0.22
    ensures r > 0.0 <==> GridVisible(s)
    ensures GridVisible(s) ==> r == 0.22
  {
    if s == Projects then 0.22 else 0.0
  }

  /** The portal's alpha target: 0.65 on contact, 0 elsewhere. */
  function PortalAlphaTarget(s: SceneState): (r: real)
    ensures 0.0 <= r <= 0.65
    ensures r > 0.0 <==> s == Contact
    ensures s == Contact ==> r == 0.65
  {
    if s == Contact then 0.65 else 0.0
  }

  /** The portal's scale target: full size on contact, 0.01 elsewhere. */
  function PortalScaleTarget(s: SceneState): (r: real)
    ensures 0.01 <= r <= 1.0
    ensures r == 1.0 <==> s == Contact
    ensures s != Contact ==> r == 0.01
  {
    if s == Contact then 1.0 else 0.01
  }

  /** No scene shows both the grid and the portal. */
  lemma GatesExclusive(s: SceneState)
    ensures !(GridOpacityTarget(s) > 0.0 && PortalAlphaTarget(s) > 0.0)
    ensures GridOpacityTarget(s) > 0.0 ==> PortalScaleTarget(s) == 0.01
  {
  }

  /** `Vector3.lerp`: one smoothing step per component. */
  function LerpVec3(v: Vec3, t: Vec3, rate: real): Vec3
  {
    Vec3(Lerp(v.x, t.x, rate), Lerp(v.y, t.y, rate), Lerp(v.z, t.z, rate))
  }

  /** `Color.lerp`: one smoothing step per channel. */
  function LerpColor(c: Color, t: Color, rate: real): Color
  {
    Color(Lerp(c.r, t.r, rate), Lerp(c.g, t.g, rate), Lerp(c.b, t.b, rate))
  }

  /** Smoothing a colour toward a colour keeps it a colour. */
  lemma LerpColorStaysUnit(c: Color, t: Color, rate: real)
    requires UnitColor(c) && UnitColor(t) && 0.0 <= rate <= 1.0
    ensures UnitColor(LerpColor(c, t, rate))
  {
    LerpStaysIn(c.r, t.r, rate, 0.0, 1.0);
    LerpStaysIn(c.g, t.g, rate, 0.0, 1.0);
    LerpStaysIn(c.b, t.b, rate, 0.0, 1.0);
  }
}
